# Vehicle rental platform: a Dafny model of its booking core

This project models the core of a vehicle rental web application (vehicles,
bookings, reviews, subscription plans and user accounts behind a small HTTP
API, with customer and admin pages on top) and proves properties of it.

The server routes are pure functions from a store and a request to a response
and the new store:

- booking admission (`POST /api/bookings`): required fields, vehicle lookup
  and availability, the three-clause date-conflict test, pricing, the
  placeholder user and the new PENDING booking;
- review creation and listing;
- vehicle creation and listing with average ratings;
- plan creation and listing;
- account registration, with its e-mail pattern;
- the admin user delete route.

A response is `Ok(data)` or `Fail(code, message)` with the HTTP status code
the route returns. Fresh ids, the clock and the password hash are parameters.
The database is a `Store` of sequences, one per table.

The pages' pure logic is modelled over the rows those routes return:

- the booking page's price preview, day count, time slots, step guards and
  return-location fallback;
- the four-step booking wizard;
- the new-vehicle form with its feature and image list editors;
- the pricing-plan feature parser;
- the admin dashboard statistics;
- the admin bookings, vehicles and users lists, with their filters, local
  updates and summary cards;
- the vehicle map page;
- the customer's booking history.

Booking dates are whole day numbers. Timestamps are integers in milliseconds.
Money is an integer amount.

Modules:

| file | module | models |
|---|---|---|
| common.dfy | `Common` | `Option`, `Response`, HTTP codes, `'ALL'`-or-value select filters |
| text.dfy | `Text` | whitespace trimming, ASCII case mapping, substring search, split/join, code-unit string order |
| seqs.dfy | `Seqs` | `filter`, counts, sums, `find`, conditional `map`, `slice`, de-duplication, sorting |
| domain.dfy | `Domain` | the stored records and the store |
| booking_admission.dfy | `BookingAdmission` | `src/app/api/bookings/route.ts` |
| reviews.dfy | `Reviews` | `src/app/api/reviews/route.ts` |
| vehicles.dfy | `Vehicles` | `src/app/api/vehicles/route.ts` |
| plans.dfy | `Plans` | `src/app/api/plans/route.ts` |
| register.dfy | `Registration` | `src/app/api/auth/register/route.ts` |
| booking_page.dfy | `BookingPage` | `src/app/booking/page.tsx` |
| booking_flow.dfy | `BookingFlow` | `src/components/BookingFlow.tsx` |
| vehicle_form.dfy | `VehicleForm` | `src/app/admin/vehicles/new/page.tsx` |
| pricing_plans.dfy | `PricingPlans` | `src/components/PricingPlans.tsx` |
| dashboard.dfy | `Dashboard` | `src/app/admin/page.tsx` |
| admin_bookings.dfy | `AdminBookings` | `src/app/admin/bookings/page.tsx` |
| admin_vehicles.dfy | `AdminVehicles` | `src/app/admin/vehicles/page.tsx` |
| map_page.dfy | `MapPage` | `src/app/map/page.tsx` |
| profile_bookings.dfy | `ProfileBookings` | `src/app/profile/bookings/page.tsx` |
| admin_users.dfy | `AdminUsers` | `src/app/admin/users/page.tsx` and `src/app/api/admin/users/[id]/route.ts` |

Three behaviours of the booking route are worth stating up front:

- The server stores `(end - start) * pricePerDay` as the price, with no one-day minimum. Only the booking page's preview has one (`BookingPage.DisplayedDays`).
- A reversed date range is admitted, with a negative price (`BookingAdmission.ReversedRangeIsAdmitted`).
- An unavailable vehicle is refused with 400.

## Model

| member | source | states |
|---|---|---|
| Domain.ParseType | src/app/api/vehicles/route.ts:104-111 | a name is recognised exactly when it is `CAR`, `BIKE` or `SCOOTER`, as the type of that name |
| Domain.ParseTypeName | src/app/api/vehicles/route.ts:105-106 | every stored type name (`CAR`, `BIKE`, `SCOOTER`) is recognised as its own type |
| Domain.FindVehicle | src/app/api/bookings/route.ts:72-82 | the vehicle found has the requested id and is in the store; none is found exactly when no vehicle has that id (the reviews route looks vehicles up the same way) |
| BookingAdmission.FindConflict | src/app/api/bookings/route.ts:91-119 | a returned booking is in the store and conflicts (same vehicle, blocking status, three-clause match); none is returned exactly when no booking conflicts |
| BookingAdmission.NewBooking | src/app/api/bookings/route.ts:151-164 | the new booking has the fresh id and the current time, is PENDING, carries the request's vehicle, user, dates, pickup location and pickup time, stores the price `(end - start) * pricePerDay`, and has return location and time falling back to the pickup ones |
| BookingAdmission.Admit | src/app/api/bookings/route.ts:50-197 | failures in order: missing fields 400, unknown vehicle 404, unavailable 400, conflict 409, then 500 when the user id is unknown and a `temp@example.com` account already exists. A failure leaves the store unchanged. Success holds exactly when all checks pass; it appends one booking priced `(end - start) * pricePerDay` and leaves vehicles, reviews and plans untouched. The placeholder user is added only when the user id is unknown |
| BookingAdmission.AdmitKeepsEmailsUnique | src/app/api/bookings/route.ts:134-148 | if no two accounts share an e-mail before a request, none do after it |
| BookingAdmission.OverlapImpliesThreeClause | src/app/api/bookings/route.ts:98-119 | any inclusive overlap of the two ranges satisfies one of the three clauses |
| BookingAdmission.ThreeClauseIsOverlap | src/app/api/bookings/route.ts:98-119 | for ordered ranges the three-clause test holds exactly when the ranges overlap inclusively |
| BookingAdmission.ThreeClauseNeedsOrderedRequest | src/app/api/bookings/route.ts:98-119 | with a reversed request range, the three-clause test can match a booking it does not overlap |
| BookingAdmission.AdmitPreservesNoDoubleBooking | src/app/api/bookings/route.ts:91-164 | if no two blocking bookings of a vehicle overlap before a request, none do after it |
| BookingAdmission.ConflictIffOverlap | src/app/api/bookings/route.ts:91-126 | for an available vehicle, an ordered request and ordered bookings, the answer is 409 exactly when a blocking booking of the vehicle overlaps the request; any other failure is the 500 of the placeholder account |
| BookingAdmission.SharedBoundaryDayConflicts | src/app/api/bookings/route.ts:98-126 | a booking ending on the day the request starts blocks it with 409 and no change to the store |
| BookingAdmission.FinishedBookingsNeverConflict | src/app/api/bookings/route.ts:95-97 | cancelled and completed bookings never conflict |
| BookingAdmission.SameDayBookingIsFree | src/app/api/bookings/route.ts:128-132 | an admitted same-day booking costs 0 |
| BookingAdmission.ReversedRangeIsAdmitted | src/app/api/bookings/route.ts:128-132 | an end date before the start date is admitted, with a negative price |
| BookingAdmission.ListBookings | src/app/api/bookings/route.ts:8-33 | the listing is a permutation of all bookings, newest first |
| Reviews.DisplayName | src/app/api/reviews/route.ts:53-57 | the name is the first name, one space, then the last name |
| Reviews.FindUser | src/app/api/reviews/route.ts:104-114 | the user found has the id; none exactly when no user has it |
| Reviews.FindBooking | src/app/api/reviews/route.ts:129-132 | the booking found has the id; none exactly when no booking has it |
| Reviews.CheckBooking | src/app/api/reviews/route.ts:128-148 | no error exactly when no booking id is given, or the booking exists with the same user and vehicle; an unknown booking is 404 "Booking not found", one of another user or vehicle 400 "Booking does not match user and vehicle" |
| Reviews.CreateReview | src/app/api/reviews/route.ts:77-187 | failures in order: missing or zero fields 400, rating outside 1..5 400, unknown user 404, unknown vehicle 404, then the booking check's error as it gives it. A failure leaves the store unchanged. Success holds exactly when every check passes; one review is appended with the rating and `comment || null`, without the booking id, and the response carries the new id, the time, the rating, the comment, the user's display name and the vehicle's type, brand and model |
| Reviews.CreateReviewKeepsRatingsInRange | src/app/api/reviews/route.ts:96-102 | if all stored ratings lie in 1..5, they still do after any request |
| Reviews.ForeignBookingRefused | src/app/api/reviews/route.ts:141-147 | a booking of another user gives 400 and no change |
| Reviews.SelectReviews | src/app/api/reviews/route.ts:12-45 | at most `limit` matching rows, all from the input, ranked by rating then newest first; every matching row left out ranks after every row returned |
| Reviews.Format | src/app/api/reviews/route.ts:47-59 | a listed review keeps its id, rating, comment and creation time, carries the author's first and last name and the display name, and summarises the vehicle |
| Reviews.ListReviews | src/app/api/reviews/route.ts:5-65 | `count` is the number returned and at most `limit`; `featured=true` gives only ratings of 4 or more; ratings are descending, ties newest first |
| Reviews.ListedReviewsBelongToVehicle | src/app/api/reviews/route.ts:14-16 | with a vehicle id given, every listed review is of that vehicle |
| Vehicles.StoredList | src/app/api/vehicles/route.ts:124-125 | an absent list is stored as `""` and a string as it is |
| Vehicles.CreateVehicle | src/app/api/vehicles/route.ts:79-144 | failures in order: missing or zero fields 400, unknown type 400, taken plate 409; a failure leaves the store unchanged. Success holds exactly when all three checks pass; it appends one available vehicle with the new id and time, the type upper-cased, brand, model, year, plate, colour, description, price and location as sent, and the lists comma-joined |
| Vehicles.AcceptedTypes | src/app/api/vehicles/route.ts:104-111 | a type is accepted exactly when its upper-cased form is `CAR`, `BIKE` or `SCOOTER` |
| Vehicles.LowerCaseTypeAccepted | src/app/api/vehicles/route.ts:104-115 | `scooter` is accepted and stored as `SCOOTER` |
| Vehicles.CreateVehicleKeepsPlatesUnique | src/app/api/vehicles/route.ts:138-144 | if licence plates are unique before a request, they are after it |
| Vehicles.StoredListSplits | src/app/api/vehicles/route.ts:124-125 | a stored comma-join of comma-free entries splits back into the entries |
| Vehicles.AvailabilityFilterNeedsExactTrue | src/app/api/vehicles/route.ts:25-27 | any `available` value other than `"true"` filters nothing |
| Vehicles.RoundedTenths | src/app/api/vehicles/route.ts:56 | the result is the mean times ten rounded to the nearest integer, halves up |
| Vehicles.AverageRating | src/app/api/vehicles/route.ts:50-56 | the average is 0 without reviews; otherwise it is `t / 10` for `t` ten times the mean rating rounded to the nearest integer, halves up |
| Vehicles.AverageRatingBounds | src/app/api/vehicles/route.ts:50-56 | with ratings in 1..5 the rounded average lies in [1, 5] |
| Vehicles.Listing | src/app/api/vehicles/route.ts:50-62 | a listing carries the vehicle, its review and booking counts and its average rating |
| Vehicles.SelectVehicles | src/app/api/vehicles/route.ts:7-47 | the selected rows are a permutation of the matching rows, newest vehicle first |
| Vehicles.ListVehicles | src/app/api/vehicles/route.ts:5-67 | one listing per matching vehicle, each matching the query |
| Plans.StoredFeatures | src/app/api/plans/route.ts:73 | anything but a list of features is stored as `""` |
| Plans.CreatePlan | src/app/api/plans/route.ts:31-81 | failures in order, all 400: missing name or price, non-numeric or non-positive price, duration other than `monthly`/`yearly`; a failure leaves the store unchanged. Success holds exactly when all pass; the plan gets currency `PLN` and duration `monthly` by default and is active |
| Plans.TextPriceRefused | src/app/api/plans/route.ts:50-56 | a price sent as text is refused with 400 |
| Plans.CreatePlanKeepsPlansValid | src/app/api/plans/route.ts:42-75 | if every stored plan has a positive price and a valid duration, that still holds after any request |
| Plans.ListPlans | src/app/api/plans/route.ts:5-19 | the listing holds exactly the active plans, cheapest first |
| Plans.CreatedPlanIsListed | src/app/api/plans/route.ts:67-75 | a newly created plan appears in the listing |
| Registration.ValidEmailFitsPattern | src/app/api/auth/register/route.ts:21 | an accepted address has a non-empty local part, one `@`, and a domain with a dot between non-empty parts, none containing whitespace |
| Registration.PatternIsValidEmail | src/app/api/auth/register/route.ts:21 | every address of that shape is accepted |
| Registration.ValidEmailMatchesPattern | src/app/api/auth/register/route.ts:20-27 | the computed check accepts exactly the addresses of that shape |
| Registration.PlainAddressAccepted | src/app/api/auth/register/route.ts:21 | `jo@a.pl` is accepted |
| Registration.DotlessDomainRefused | src/app/api/auth/register/route.ts:21 | `jan@pl` is refused |
| Registration.SecondAtRefused | src/app/api/auth/register/route.ts:21 | `jan@a@b.pl` is refused |
| Registration.Public | src/app/api/auth/register/route.ts:64-71 | the response user keeps every field but the password, which it does not have |
| Registration.Register | src/app/api/auth/register/route.ts:7-71 | failures in order, all 400: missing fields, bad e-mail, password under 6 characters, e-mail taken; a failure leaves the store unchanged. Success holds exactly when all pass; it appends one CLIENT user with the hashed password and `phone || null` |
| Registration.RegisterKeepsEmailsUnique | src/app/api/auth/register/route.ts:37-62 | if e-mails are unique before a request, they are after it |
| Registration.SecondRegistrationRefused | src/app/api/auth/register/route.ts:37-47 | registering the same e-mail again is refused with 400 |
| Registration.RegisteredAsClient | src/app/api/auth/register/route.ts:49-62 | a new account has role CLIENT and stores the hash of the password |
| BookingPage.InitialForm | src/app/booking/page.tsx:44-52 | the form starts with the queried vehicle id or `''`, empty dates and locations, and times 09:00 and 18:00 |
| BookingPage.Request | src/app/booking/page.tsx:93-102 | the posted request carries the form's vehicle, dates, locations and times, and no user id |
| BookingPage.DisplayedDays | src/app/booking/page.tsx:212 | the shown day count is at least 1, and the date difference when that is positive |
| BookingPage.PreviewPrice | src/app/booking/page.tsx:83-91 | the preview is 0 without a vehicle or either date, else `max(1, days) * pricePerDay` |
| BookingPage.PreviewMatchesServerIff | src/app/booking/page.tsx:86-90 | the preview equals the server's price exactly when the range is at least a day or the price is 0 |
| BookingPage.SameDayPreviewDiffers | src/app/booking/page.tsx:86-90 | a same-day range previews one day's price while the server charges 0 |
| BookingPage.PadStart2 | src/app/booking/page.tsx:278 | the result is the input with zeros in front of it, two characters long when the input is shorter |
| BookingPage.Slot | src/app/booking/page.tsx:276-282 | a slot is the two-digit hour followed by `:00` |
| BookingPage.TimeSlots | src/app/booking/page.tsx:276-282 | there are 12 slots, the i-th for hour 8 + i |
| BookingPage.TimeSlotHours | src/app/booking/page.tsx:276-302 | the slots read back as hours 8 to 19, run from `08:00` to `19:00`, and are all distinct |
| BookingPage.InitialTimesAreSlots | src/app/booking/page.tsx:50-51 | the initial times are among the offered slots |
| BookingPage.Forward | src/app/booking/page.tsx:338-428 | step 1 advances exactly when dates and pickup location are set; step 2 exactly when first name, last name, e-mail and phone are set |
| BookingPage.Back | src/app/booking/page.tsx:421-491 | steps 2 and 3 go back by one |
| BookingPage.DrivingLicenceNotRequired | src/app/booking/page.tsx:428 | the driving licence does not affect the step 2 guard |
| BookingPage.StepsStayInRange | src/app/booking/page.tsx:338-491 | the step stays within 1..3 |
| BookingPage.DetailsStepGuardsRequiredFields | src/app/booking/page.tsx:339 | passing step 1, with a vehicle and pickup time, gives a request the server's required-field check accepts |
| BookingPage.ShownReturnLocation | src/app/booking/page.tsx:466 | the summary shows the return location, or the pickup location when it is empty |
| BookingPage.ShownReturnLocationIsStored | src/app/booking/page.tsx:466 | the shown return location is the one the server stores for the booking |
| BookingFlow.InitialStep | src/components/BookingFlow.tsx:45 | the wizard starts on a valid step |
| BookingFlow.NextStep | src/components/BookingFlow.tsx:74-78 | forward adds one below step 4 and does nothing on it |
| BookingFlow.PrevStep | src/components/BookingFlow.tsx:80-84 | back subtracts one above step 1 and does nothing on it |
| BookingFlow.PrevUndoesNext | src/components/BookingFlow.tsx:74-84 | back after forward returns to the step, below step 4 |
| BookingFlow.PressesKeepStepValid | src/components/BookingFlow.tsx:45-84 | any sequence of presses keeps the step within 1..4 |
| BookingFlow.BooleanProperty | src/components/BookingFlow.tsx:61 | a listing object has a boolean property only under the name `isAvailable` |
| BookingFlow.OfferedVehiclesAsWritten | src/components/BookingFlow.tsx:61 | the filter as written keeps a subsequence of the listings |
| BookingFlow.OfferedVehiclesAsWrittenIsEmpty | src/components/BookingFlow.tsx:61 | as written, no vehicle is ever offered |
| BookingFlow.AvailableVehicleNotOfferedAsWritten | src/components/BookingFlow.tsx:61 | as written, even an available vehicle is not offered |
| BookingFlow.OfferedVehicles | src/components/BookingFlow.tsx:61 | the corrected filter keeps, in order, the available vehicles and all of them |
| BookingFlow.OfferedVehiclesAreTheAvailableOnes | src/components/BookingFlow.tsx:61 | a vehicle is offered exactly when it is listed and available |
| BookingFlow.InitialState | src/components/BookingFlow.tsx:45-48 | nothing is selected at the start |
| BookingFlow.SelectVehicle | src/components/BookingFlow.tsx:86-92 | selecting records the vehicle and its id and leaves the step and all other data unchanged |
| BookingFlow.SubmittedPrice | src/components/BookingFlow.tsx:70-72 | the submitted price is the daily price times the day count, or times 1 when that is missing or 0 |
| BookingFlow.Submit | src/components/BookingFlow.tsx:94-108 | something is submitted exactly when a vehicle is selected and customer details exist; it carries the selected id and the price above |
| BookingFlow.SubmitAfterSelect | src/components/BookingFlow.tsx:86-95 | once customer details exist, selecting a vehicle makes submit post that vehicle's id |
| BookingFlow.Forward | src/components/BookingFlow.tsx:386-388 | the forward button is disabled exactly on step 1 with no vehicle, and submits exactly on step 4 otherwise |
| BookingFlow.SetDetail | src/components/BookingFlow.tsx:280-327 | editing a details input sets that field only; the vehicle, day count and customer details stay |
| BookingFlow.Apply | src/components/BookingFlow.tsx:74-92 | no action of the wizard changes the customer details; every action keeps the step valid; choosing a vehicle selects it |
| BookingFlow.WizardNeverSubmits | src/components/BookingFlow.tsx:95 | from a state without customer details, no sequence of actions reaches one that submits: steps 3 and 4 never collect the details |
| VehicleForm.AddEntry | src/app/admin/vehicles/new/page.tsx:49-57 | the trimmed draft is appended and the box cleared exactly when it is non-blank and not yet present; otherwise nothing changes |
| VehicleForm.RemoveEntry | src/app/admin/vehicles/new/page.tsx:59-64 | removing drops every copy of the value and keeps all other entries in order, each as many times as before |
| VehicleForm.AddEntryKeepsWellFormed | src/app/admin/vehicles/new/page.tsx:49-57 | adding keeps the list free of duplicates and blank or untrimmed entries |
| VehicleForm.RemoveEntryKeepsWellFormed | src/app/admin/vehicles/new/page.tsx:59-64 | removing keeps the list well formed |
| VehicleForm.RemoveAbsentEntry | src/app/admin/vehicles/new/page.tsx:59-64 | removing a value that is not present changes nothing |
| VehicleForm.AddThenRemoveRestores | src/app/admin/vehicles/new/page.tsx:49-64 | adding a fresh value and removing its trimmed form restores the list |
| VehicleForm.DuplicateDraftRefused | src/app/admin/vehicles/new/page.tsx:50 | a draft that trims to an existing entry changes nothing, and the box keeps its text |
| VehicleForm.PaddedDuplicateRefused | src/app/admin/vehicles/new/page.tsx:50-53 | an existing entry typed with surrounding spaces is not added again |
| VehicleForm.ToNumberOfNatString | src/app/admin/vehicles/new/page.tsx:45 | the decimal text of a natural number coerces to that number |
| VehicleForm.ToNumberExamples | src/app/admin/vehicles/new/page.tsx:45 | empty input coerces to 0 and letters to NaN |
| VehicleForm.DefaultForm | src/app/admin/vehicles/new/page.tsx:27-39 | the form starts as type CAR, the current year, price 0, empty text fields (brand, model, plate, colour, description, location) and empty lists |
| VehicleForm.InputChange | src/app/admin/vehicles/new/page.tsx:41-47 | `year` and `pricePerDay` are coerced to numbers; `type`, `brand`, `model`, `licensePlate`, `color`, `description` and `location` store the typed text; every other field and the lists stay |
| VehicleForm.TextInputKeepsNumbers | src/app/admin/vehicles/new/page.tsx:45 | a text input never changes the numeric fields |
| VehicleForm.AddFeature | src/app/admin/vehicles/new/page.tsx:49-57 | adding a feature applies the editor rule to the features and changes no other field |
| VehicleForm.RemoveFeature | src/app/admin/vehicles/new/page.tsx:59-64 | removing a feature changes only the features |
| VehicleForm.AddImage | src/app/admin/vehicles/new/page.tsx:66-74 | images follow the same add rule, leaving every other field |
| VehicleForm.RemoveImage | src/app/admin/vehicles/new/page.tsx:76-81 | removing an image changes only the images |
| VehicleForm.ListEditsKeepFormWellFormed | src/app/admin/vehicles/new/page.tsx:27-81 | the default form is well formed and every list edit keeps both lists well formed |
| PricingPlans.TrimAll | src/components/PricingPlans.tsx:29 | each piece is trimmed, none dropped |
| PricingPlans.ParseFeatureString | src/components/PricingPlans.tsx:28-29 | every parsed feature is non-empty, trimmed and comma-free |
| PricingPlans.ParseFeatures | src/components/PricingPlans.tsx:26-33 | a string is parsed, an array passes unchanged, anything else becomes `[]` |
| PricingPlans.ParseJoinRoundTrip | src/components/PricingPlans.tsx:29 | parsing the comma-join of non-empty, trimmed, comma-free features gives them back |
| PricingPlans.ParseIsStable | src/components/PricingPlans.tsx:29 | re-joining and re-parsing a parsed list changes nothing |
| PricingPlans.CommaInFeatureSplits | src/components/PricingPlans.tsx:29 | a feature containing a comma comes back as two |
| PricingPlans.ParsePlan | src/components/PricingPlans.tsx:26-33 | parsing keeps every plan field but the features, which are parsed |
| PricingPlans.CreatedFeaturesShown | src/components/PricingPlans.tsx:26-33 | the plain features a plan is created with are the features the component shows |
| PricingPlans.PopularExactly | src/components/PricingPlans.tsx:51-53 | a plan is popular exactly when its flag is set or the letters of `premium`, in any case, appear together in its name |
| PricingPlans.PremiumPrefixIsPopular | src/components/PricingPlans.tsx:51-53 | a name starting with `premium` in any case makes the plan popular |
| PricingPlans.PlainNameNotPopular | src/components/PricingPlans.tsx:51-53 | without the flag and without `premium` in the name, a plan is not popular |
| Dashboard.UserIds | src/app/admin/page.tsx:93 | the set holds exactly the user ids of the bookings |
| Dashboard.UserIdsBound | src/app/admin/page.tsx:93 | there are no more distinct users than bookings |
| Dashboard.Stats | src/app/admin/page.tsx:78-104 | the counts and revenue are the filters' counts and the price sum. Available ≤ total, and pending + completed ≤ total. Active users ≤ bookings, and 0 exactly when there are none |
| Dashboard.SameDayWithinADay | src/app/admin/page.tsx:87-90 | two timestamps on the same day are less than a day apart |
| Dashboard.RevenueCoversEachBooking | src/app/admin/page.tsx:84 | with no negative prices, revenue is at least each booking's price |
| Dashboard.NonNegativeSum | src/app/admin/page.tsx:84 | with no negative prices, revenue is not negative |
| Dashboard.RecentBookings | src/app/admin/page.tsx:106-110 | min(5, n) bookings taken from the list, newest first, none newer left out |
| AdminBookings.SearchedFields | src/app/admin/bookings/page.tsx:98-105 | the search covers seven fields |
| AdminBookings.FilterBookings | src/app/admin/bookings/page.tsx:97-111 | the filtered list is an order-preserving subsequence holding exactly the matching bookings, every copy of a passing entry kept and no copy of a failing one |
| AdminBookings.EmptySearchMatchesAll | src/app/admin/bookings/page.tsx:98-105 | the empty search matches every booking |
| AdminBookings.DefaultFilterShowsAll | src/app/admin/bookings/page.tsx:97-111 | no search and both filters on `'ALL'` show the whole list |
| AdminBookings.StatusFilterIsExact | src/app/admin/bookings/page.tsx:107 | a status filter shows only bookings in exactly that status |
| AdminBookings.ChangeStatus | src/app/admin/bookings/page.tsx:81-90 | on success only the bookings with that id change, taking the new status; on failure nothing changes |
| AdminBookings.ChangeStatusKeepsOtherFields | src/app/admin/bookings/page.tsx:82-86 | a status change touches no field but the status |
| AdminBookings.ChangeStatusIdempotent | src/app/admin/bookings/page.tsx:82-86 | setting the same status twice equals setting it once |
| AdminBookings.SelectOptions | src/app/admin/bookings/page.tsx:344-354 | the select offers each of the five statuses once, from any current status: there is no transition table |
| AdminBookings.QuickActions | src/app/admin/bookings/page.tsx:370-386 | confirm and cancel are offered for a pending booking and nothing for others |
| AdminBookings.Summarize | src/app/admin/bookings/page.tsx:413-438 | the cards are the list length, the pending, confirmed-or-active and paid counts, and the price sum; pending + active ≤ total and paid ≤ total |
| AdminBookings.FilteredSummaryBounded | src/app/admin/bookings/page.tsx:410-420 | filtering never raises the total or the pending count |
| AdminVehicles.FilterVehicles | src/app/admin/vehicles/page.tsx:105-119 | the filtered list is an order-preserving subsequence holding exactly the vehicles passing search, type and availability, every copy of a passing entry kept and no copy of a failing one |
| AdminVehicles.DefaultFilterShowsAll | src/app/admin/vehicles/page.tsx:105-119 | no search and both selects on `'ALL'` show every vehicle |
| AdminVehicles.AvailabilityPartitions | src/app/admin/vehicles/page.tsx:113-116 | the `AVAILABLE` and `UNAVAILABLE` lists together are as long as the `ALL` list |
| AdminVehicles.ToggleAvailability | src/app/admin/vehicles/page.tsx:90-98 | on success the vehicles with that id get the negated flag and the others stay; on failure nothing changes |
| AdminVehicles.ToggleFlipsTarget | src/app/admin/vehicles/page.tsx:91-95 | with unique ids, toggling flips the target's flag and touches nothing else |
| AdminVehicles.ToggleTwiceRestores | src/app/admin/vehicles/page.tsx:91-95 | toggling twice from the shown flag restores the list |
| AdminVehicles.DeleteVehicle | src/app/admin/vehicles/page.tsx:66-71 | on success the vehicles with that id are gone and the rest kept in order, each as many times as before; on failure nothing changes |
| AdminVehicles.DeleteAbsentVehicle | src/app/admin/vehicles/page.tsx:66-67 | deleting an unknown id changes nothing |
| AdminVehicles.RoundedMean | src/app/admin/vehicles/page.tsx:377 | the result is the mean rounded to the nearest integer, halves up |
| AdminVehicles.Summarize | src/app/admin/vehicles/page.tsx:357-377 | available + unavailable = total; an average price exists exactly for a non-empty list and is the rounded mean |
| AdminVehicles.RoundedMeanBounds | src/app/admin/vehicles/page.tsx:377 | a rounded mean of values in [lo, hi] lies in [lo, hi] |
| AdminVehicles.AveragePriceBounds | src/app/admin/vehicles/page.tsx:377 | the shown average lies between the lowest and highest daily price bounds |
| MapPage.FilterVehicles | src/app/map/page.tsx:66-83 | the filtered list is an order-preserving subsequence holding exactly the vehicles passing search, type, availability and location, every copy of a passing entry kept and no copy of a failing one |
| MapPage.LocationFilterIsExact | src/app/map/page.tsx:78 | a picked location shows only vehicles at exactly it |
| MapPage.DefaultFilterShowsAll | src/app/map/page.tsx:66-83 | no search and all selects on `'ALL'` show the whole fleet |
| MapPage.Locations | src/app/map/page.tsx:96 | one location per vehicle, in order |
| MapPage.UniqueLocations | src/app/map/page.tsx:95-98 | the locations are duplicate-free, strictly increasing, and exactly the vehicles' locations |
| MapPage.Stats | src/app/map/page.tsx:100-108 | available ≤ total and cars + bikes + scooters = total |
| MapPage.BookingLink | src/app/map/page.tsx:315-322 | a booking link exists exactly for an available vehicle and carries its id |
| MapPage.AvailabilityFilterDecidesBooking | src/app/map/page.tsx:74-77 | under `AVAILABLE` every row has a booking link, under `UNAVAILABLE` none does |
| ProfileBookings.ListProperty | src/app/api/bookings/route.ts:35-38 | the response body has a list only under the name `data`, and that list is the bookings |
| ProfileBookings.LoadedBookingsAsWritten | src/app/profile/bookings/page.tsx:64 | the read as written holds no more bookings than the response |
| ProfileBookings.LoadedBookingsAsWrittenIsEmpty | src/app/profile/bookings/page.tsx:64 | as written, the page never holds a booking |
| ProfileBookings.RouteBookingNotShownAsWritten | src/app/profile/bookings/page.tsx:64 | as written, a booking the route returns is not listed |
| ProfileBookings.LoadedBookings | src/app/profile/bookings/page.tsx:64 | the corrected read holds exactly the bookings of the response's `data` |
| ProfileBookings.RouteBookingsAreShown | src/app/profile/bookings/page.tsx:64 | with the corrected read, the page holds exactly the bookings the route lists |
| ProfileBookings.FilterBookings | src/app/profile/bookings/page.tsx:124-127 | the filtered list is an order-preserving subsequence holding exactly the bookings the status filter admits, every copy of a passing entry kept and no copy of a failing one |
| ProfileBookings.AllFilterShowsEverything | src/app/profile/bookings/page.tsx:125 | `'ALL'` shows every booking |
| ProfileBookings.CalculateDays | src/app/profile/bookings/page.tsx:129-135 | the day count is the absolute time difference in days, rounded up, and never negative |
| ProfileBookings.CalculateDaysSymmetric | src/app/profile/bookings/page.tsx:129-135 | swapping the dates gives the same count, and it is 0 exactly for equal dates |
| ProfileBookings.CalculateDaysOfDays | src/app/profile/bookings/page.tsx:129-135 | on midnight timestamps the count is the distance between the day numbers |
| ProfileBookings.ShownDaysGiveServerPrice | src/app/profile/bookings/page.tsx:250 | for an ordered booking, the shown days times the daily price is the server's price |
| ProfileBookings.ShownReturnLocation | src/app/profile/bookings/page.tsx:257-259 | the return location is shown exactly when it is set and differs from the pickup location |
| ProfileBookings.SameReturnLocationHidden | src/app/profile/bookings/page.tsx:257-259 | returning where it was picked up shows no return location |
| ProfileBookings.CancelOfferedUnderPendingTab | src/app/profile/bookings/page.tsx:297-301 | the cancel button is offered exactly for PENDING bookings: every booking under the PENDING tab has it, every booking with it is under that tab, and such a booking still blocks its vehicle |
| ProfileBookings.PageSummary | src/app/profile/bookings/page.tsx:319-393 | the cards appear exactly when there are bookings; they count all of them, the active-or-confirmed ones, the completed ones, and sum all prices |
| ProfileBookings.SummaryCoversFilteredList | src/app/profile/bookings/page.tsx:333 | the total card is at least as large as the filtered list |
| AdminUsers.FilterUsers | src/app/admin/users/page.tsx:85-94 | the filtered list is an order-preserving subsequence holding exactly the users passing search and role, every copy of a passing entry kept and no copy of a failing one |
| AdminUsers.DefaultFilterShowsAll | src/app/admin/users/page.tsx:85-94 | no search and role `'ALL'` show every user |
| AdminUsers.RoleFilterIsExact | src/app/admin/users/page.tsx:91 | a role filter shows only users with exactly that role |
| AdminUsers.DeleteRoute | src/app/admin/users/page.tsx:69-72 | the `DELETE` request the page sends, as the route file `src/app/api/admin/users/[id]/route.ts` (lines 7-42) answers it: a non-admin session gets 401, an unknown id 404, an admin target 403, all without change; success needs an admin session and a non-admin target, and leaves exactly the list without that id, every other user kept |
| AdminUsers.DeleteUser | src/app/admin/users/page.tsx:74-82 | on success the users with that id are gone and the rest kept in order, each as many times as before; on failure nothing changes |
| AdminUsers.AdminsSurviveDelete | src/app/admin/users/page.tsx:74-75 | with unique ids, no admin ever disappears, from the page's list or from the store |
| AdminUsers.OfferedExactlyWhenRouteDeletes | src/app/admin/users/page.tsx:254 | the delete button is shown exactly for the users the route would delete for an admin |

## Left out

- Rendering, navigation, `fetch` plumbing, alerts and confirmation dialogs are not modelled. Each page's logic takes the rows and the request outcome as parameters.
- Sessions and authentication (next-auth) are not modelled. The page-side admin redirects are not modelled either. The delete route takes the session's role as a parameter.
- Password hashing (bcrypt) is a parameter `hash` of `Register`. Fresh ids and the clock are parameters of every handler.
- Concurrency is not modelled. The booking route's check-then-insert is not transactional, and the sequential model serialises requests by construction.
- Vehicles.StoredList: a `features` or `images` value that is neither an array nor a string (a number, say) is not modelled. The route would pass it to the database unchanged.
- Money is an integer amount, because prices are floats in the source. `parseFloat` and `parseInt` of the posted price, year and rating are not modelled; the values arrive as integers.
- Vehicles.AverageRating: the result is a `real` built from an integer rounding. JavaScript's floating-point division and `Math.round` are not modelled bit for bit.
- AdminVehicles.RoundedMean: the same integer rounding stands for `Math.round` of a floating-point mean.
- Dates are integers: whole day numbers for bookings, milliseconds for timestamps. Malformed date strings, `Invalid Date` and time zones are not modelled. The calendar day of a timestamp is taken as whole UTC days.
- Text.Lower and Text.Upper map ASCII letters only. The Unicode case mapping of `toLowerCase` and `toUpperCase` on Polish text is not modelled.
- String length counts characters, not UTF-16 code units. Text.StrLe orders by character code, which differs from UTF-16 order only for characters outside the Basic Multilingual Plane.
- VehicleForm.ToNumber handles integer text only: optional sign and decimal digits, around whitespace. Fractions, exponents, hexadecimal and `Infinity` give `NaN` in the model, but `Number` accepts them.
- VehicleForm.InputChange: an input name that is not a form field leaves the form unchanged. The source would add a new property under that name.
- Reviews.SelectReviews: a negative or non-numeric `limit` is taken as a natural number. Prisma's behaviour for `take` with such values is not modelled.
- Sorting is a stable insertion sort. Database `orderBy` does not promise stability among equal keys, so the contracts state only the order and the permutation.
- Seqs.Dedupe keeps the last of equal elements, where `Set` keeps the first. It is used only before a sort, where the order makes no difference.
- Status transitions and booking deletion (`PATCH` and `DELETE /api/bookings/[id]`), `PATCH` and `DELETE /api/vehicles/[id]`, and `PUT /api/admin/users/[id]` are not part of this model. The pages' local updates take the request's outcome as a parameter.
- The reports route (raw SQL), the seed script, the Google Maps components and the presentation-only components are not modelled.
- The database schema is not part of this model. Three of its defaults are assumed:
  - a created vehicle is available;
  - a created plan is active;
  - the placeholder user has role CLIENT.
- AdminUsers.DeleteRoute: the database cascades a user's deletion to their related records. The model's user list does not hold those records, so it does not say what happens to them.
- User e-mail addresses are assumed unique, as registration and the seed script look accounts up by e-mail. Any other database error behind the booking route's catch-all 500 is not modelled.
- The admin bookings page reads each booking's `paymentStatus`. The model assumes the listed rows carry it, because the schema that would settle whether the route's rows have that field is not part of this model.
- The booking history page asks the bookings route for `?userId=…`. The route ignores the parameter and returns every booking, so the corrected page lists all bookings; the model does not filter by user either.

## Findings

| source | as written | input that shows it | evidently intended | confidence | as-written member | corrected member |
|---|---|---|---|---|---|---|
| src/components/BookingFlow.tsx:61 | the wizard keeps the vehicles whose `available` property is truthy, but `GET /api/vehicles` returns each vehicle's flag as `isAvailable` and no `available` property | any fleet, e.g. one vehicle with `isAvailable: true`: the wizard offers no vehicle | offer the vehicles whose `isAvailable` is true | high (not executed) | BookingFlow.OfferedVehiclesAsWrittenIsEmpty | BookingFlow.OfferedVehicles |
| src/app/profile/bookings/page.tsx:64 | the page stores `data.bookings \|\| []`, but `GET /api/bookings` answers `{ success, data }` | any response, e.g. one booking in `data`: the page lists none | read the bookings from `data` | high (not executed) | ProfileBookings.LoadedBookingsAsWrittenIsEmpty | ProfileBookings.LoadedBookings |
