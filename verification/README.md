# Skin and hair consultation booking: a Dafny model

This project models the core of a storefront that sells paid skin and hair consultations. It covers:

- the consultation record: the Mongoose schema's validation, defaults and normalisation, the `CONS-` reference number, and the pre-save hook that schedules a new booking two days ahead at 10 AM;
- the consultation controller: listing with filters, newest-first order and pagination; lookup by id and by reference; partial update; statistics;
- the payment controller: creating a gateway order, and verifying a payment signature and then booking the consultation;
- the cart context: the reducer, the guest-cart operations, and the cart total and count;
- the auth context: the reducer, its initial state, and the session restore at startup.

The modules are:

- `Wrappers`: `Option`, `Result`, and `Field`, a JavaScript field that is undefined, `null` or a value.
- `Strings`: truthy strings, JavaScript `trim` with its whitespace set, ASCII case mapping, `substring`, and decimal rendering.
- `ConsultationModel`: the record, `Validate`, `ReferenceNumber`, `AutoSchedule`, and the document class `ConsultationDocument`, whose `PreSave` runs the hook in place.
- `ConsultationController`: the queries over a snapshot of the collection, and the class `ConsultationStore`, whose methods insert a booking, update one, or write calendar data back.
- `PaymentController`: `CreateRazorpayOrder` and the method `VerifyPayment`.
- `CartContext`: the pure list operations, and the class `Cart` that holds the reducer state and the stored guest cart.
- `AuthContext`: the reducer, runs of actions, and `Restore`.

Dates are a day number plus milliseconds within the day. The following become parameters:

- the gateway's `orders.create`;
- HMAC-SHA256 with hex encoding, as `hmacHex(key, message)`;
- `new Date(...)` parsing of a request date;
- `JSON.parse`;
- the clock;
- the ObjectId the driver assigns;
- whether a database write succeeds.

Some behaviour of the code is worth stating plainly:

- `verifyPayment` has no guard against booking the same payment twice.
- Its save error carries neither the order id nor the payment id.
- Lookup by reference looks up the remainder after `CONS-` as a whole id, not as a prefix. An issued 13-character reference therefore never finds its booking; see the second row under "Findings".
- The update response is a hydrated document. The assignment to its `referenceNumber` virtual stores nothing, because the virtual has only a getter, and `res.json` leaves virtuals out. So, unlike the lookups, the update response carries no reference number.

Mongoose behaviour that the code relies on is modelled explicitly:

- A `required` string rejects `""`.
- An enum validator accepts only its values, or an absent value; `""` is not accepted.
- A default applies only to an undefined field.
- An update stores a `null` expert note or assigned expert; only an undefined one is left alone.
- A request id that is not 24 hexadecimal digits is a cast error, which the controllers turn into a 500 response. This is the ObjectId cast of bson 6, the driver under Mongoose 8; see `CastObjectId` under "Left out".
- A page with a negative skip is a query error.
- A limit of 0 means no limit, and `Math.ceil(total / 0)` serialises as `null`.

## Model

| member | source | states |
|---|---|---|
| ConsultationModel.CastObjectId | backend/src/controllers/consultationController.js:52 | a request id casts exactly when it is 24 hex digits in either case; the result is the id lower-cased, and an ObjectId casts to itself |
| ConsultationModel.CastUpperObjectId | backend/src/controllers/consultationController.js:52 | an ObjectId written in capitals casts back to the same id |
| ConsultationModel.Validate | backend/src/models/Consultation.js:3-99 | creation succeeds exactly when no schema rule fails, and otherwise reports the failing paths; a success is a valid record with the given id and both timestamps set to the save time |
| ConsultationModel.ValidateAcceptsExactly | backend/src/models/Consultation.js:4-75 | validation succeeds iff the name is non-blank, age is in 1..120, gender and consultationType are in their enums, the skin type is absent or in its enum, both payment ids are non-empty, an amount is given, and any paymentStatus/status is in its enum |
| ConsultationModel.MissingRequiredRejected | backend/src/models/Consultation.js:4-58 | a missing name, age, gender, consultationType, order id, payment id or amount makes creation fail, naming that field |
| ConsultationModel.SkinTypeOutsideEnumRejected | backend/src/models/Consultation.js:34-37 | any supplied skin type outside dry/oily/combination/normal/sensitive, including "", fails on skinType |
| ConsultationModel.DefaultsApplied | backend/src/models/Consultation.js:4-96 | unsupplied paymentStatus, status, concerns, currentProducts, expertNotes and assignedExpert take completed, pending and "" respectively; the name is trimmed, the email is trimmed and lower-cased, and the skin type and date are kept as given |
| ConsultationModel.NormalizeEmailIdempotent | backend/src/models/Consultation.js:20-24 | trimming and lower-casing an email twice gives the same result as doing it once |
| ConsultationModel.ReferenceNumber | backend/src/models/Consultation.js:102-104 | the reference is CONS- followed by the id's first eight characters (fewer if the id is shorter), upper-cased one by one |
| ConsultationModel.ReferenceOfObjectId | backend/src/models/Consultation.js:102-104 | for an ObjectId the reference has 13 characters, the last eight upper-case hex digits |
| ConsultationModel.ReferenceCollision | backend/src/models/Consultation.js:102-104 | two ObjectIds share a reference iff their first eight characters agree |
| ConsultationModel.ReferenceExample | backend/src/models/Consultation.js:102-104 | id 60c72b2f9b1e8a3f4c8b4567 has reference CONS-60C72B2F |
| ConsultationModel.TwoDaysAtTen | backend/src/models/Consultation.js:110-112 | the hook's date is two days after now, at 10:00:00.000 |
| ConsultationModel.AutoSchedule | backend/src/models/Consultation.js:107-118 | on a new record without a date, it sets the date two days ahead at 10 AM, the time to "10:00 AM" and status to scheduled, and changes nothing else; otherwise it changes nothing |
| ConsultationModel.AutoScheduleOnce | backend/src/models/Consultation.js:108 | running the hook a second time, at any later time, changes nothing |
| ConsultationModel.AutoSchedulePreservesValid | backend/src/models/Consultation.js:107-118 | the hook keeps a valid record valid |
| ConsultationModel.ConsultationDocument.PreSave | backend/src/models/Consultation.js:107-118 | the in-place hook leaves the document exactly as `AutoSchedule` describes |
| ConsultationModel.ConsultationDocument.MarkSaved | backend/src/models/Consultation.js:108 | after the first save the document is no longer new and its record is unchanged |
| ConsultationController.FilterRecords | backend/src/controllers/consultationController.js:8-10 | a record is kept iff it matches each non-empty filter, as many times as it is stored; a record that does not match is dropped; an empty or absent filter constrains nothing |
| ConsultationController.EmptyFilterKeepsAll | backend/src/controllers/consultationController.js:8-10 | with no filters every record is kept, in order |
| ConsultationController.InsertByNewest | backend/src/controllers/consultationController.js:15 | inserting into a newest-first list keeps it newest-first and is a permutation of the list plus the new record |
| ConsultationController.SortNewestFirst | backend/src/controllers/consultationController.js:15 | the result is ordered by createdAt descending and is a permutation of the input |
| ConsultationController.Window | backend/src/controllers/consultationController.js:16-17 | the page is the contiguous slice that starts at skip; it holds min(limit, records remaining) records, the magnitude being used for a negative limit; a limit of 0 means every remaining record, and a skip past the end gives an empty page |
| ConsultationController.PageCount | backend/src/controllers/consultationController.js:36 | pages is the ceiling of total/limit for a positive limit, and null for a limit of 0 |
| ConsultationController.ListedRecords | backend/src/controllers/consultationController.js:14-17 | the page is the window at skip of the matching records sorted newest first; each listed record is stored and matches the filters, and the page is newest first |
| ConsultationController.ListConsultations | backend/src/controllers/consultationController.js:4-47 | fails exactly when skip is negative; otherwise the data is the filtered, sorted page, each item carries its CONS- reference, total counts every match, and pages is the ceiling |
| ConsultationController.ListedPageContents | backend/src/controllers/consultationController.js:12-27 | every listed record is in the collection and matches both non-empty filters |
| ConsultationController.IndexOfId | backend/src/controllers/consultationController.js:52 | the index found holds the id; -1 means no record has it |
| ConsultationController.IndexOfStoredId | backend/src/controllers/consultationController.js:52 | in a store with unique ids, a stored record's id is found at its own index |
| ConsultationController.GetById | backend/src/controllers/consultationController.js:50-77 | a malformed id gives the fetch error; a well-formed absent id gives not-found; a found record is the stored one with that id, with its CONS- reference |
| ConsultationController.GetByIdFindsStored | backend/src/controllers/consultationController.js:50-63 | every stored record is found by its own id, in lower or upper case |
| ConsultationController.GetByRef | backend/src/controllers/consultationController.js:80-109 | the first five characters are dropped and the rest is looked up as an id: the fetch error iff the length is not 29 or the rest is not 24 hex digits; found iff a stored record has that id lower-cased, and then the result is that record with its reference; not found otherwise |
| ConsultationController.GetByRefFindsStored | backend/src/controllers/consultationController.js:80-100 | any five characters followed by a stored record's id find that record |
| ConsultationController.IssuedReferenceNeverFound | backend/src/controllers/consultationController.js:84-86 | the reference issued for any ObjectId gives the fetch error, never the booking |
| ConsultationController.FindByReference | frontend/src/pages/ConsultationConfirmation.jsx:16 | the lookup the confirmation page needs: never the fetch error; found iff some record has this reference number, and then the result is a stored record with that reference |
| ConsultationController.IssuedReferenceFound | frontend/src/pages/Consultation.jsx:95 | a booking whose reference no other booking shares is found by the reference it was issued |
| ConsultationController.StatusCountsBounded | backend/src/controllers/consultationController.js:157-159 | the pending, scheduled and completed counts sum to at most the total |
| ConsultationController.TypeCountsBounded | backend/src/controllers/consultationController.js:160-161 | the skin and hair counts sum to at most the total |
| ConsultationController.TypeCountsCoverValid | backend/src/controllers/consultationController.js:160-161 | in a valid collection the skin and hair counts sum to the total |
| ConsultationController.CountStatusIsFilterSize | backend/src/controllers/consultationController.js:157-159 | a status count equals the number of records the list filter for that status keeps |
| ConsultationController.CountTypeIsFilterSize | backend/src/controllers/consultationController.js:160-161 | a type count equals the number of records the list filter for that type keeps |
| ConsultationController.GetStats | backend/src/controllers/consultationController.js:154-177 | total is the size of the collection; pending, scheduled and completed are each the number of records the list filter for that status keeps, and skin and hair the number the filter for that type keeps; the status and type counts are bounded by the total |
| ConsultationController.ApplyPatch | backend/src/controllers/consultationController.js:116-121 | status, scheduledDate and scheduledTime change only when truthy; expertNotes and assignedExpert keep their value when undefined, become null when null, and take any string otherwise, "" included; updatedAt becomes now; nothing else changes |
| ConsultationController.ApplyPatchPreservesValid | backend/src/controllers/consultationController.js:117-126 | an update whose status passes the enum keeps the record valid |
| ConsultationController.ApplyPatchKeepsPayment | backend/src/controllers/consultationController.js:116-121 | an update never touches the id, name, age, payment ids, amount, paymentStatus or createdAt |
| ConsultationController.UpdateResult | backend/src/controllers/consultationController.js:112-151 | it fails iff the id, the date or the status is rejected; not-found iff the id is well-formed and absent and the date and status are accepted; otherwise exactly the one record is replaced by its patched version, which is the response, without a reference number; on every non-update the collection is unchanged |
| ConsultationController.ReplacePreservesStore | backend/src/controllers/consultationController.js:123-127 | replacing a record by a valid one with the same id keeps the collection well formed |
| ConsultationController.AppendPreservesStore | backend/src/models/Consultation.js:3-99 | appending a valid record with a fresh ObjectId keeps the collection well formed |
| ConsultationController.UpdatePreservesStore | backend/src/controllers/consultationController.js:123-134 | every update outcome leaves a well-formed collection |
| ConsultationController.ConsultationStore.Create | backend/src/models/Consultation.js:3-118 | the insert succeeds iff validation passes, the id is fresh and the write succeeds; the stored record is the validated one after the hook, appended at the end; a failure changes nothing |
| ConsultationController.ConsultationStore.Update | backend/src/controllers/consultationController.js:123-134 | the response and the new collection are those `UpdateResult` gives, and the collection stays well formed |
| ConsultationController.WithCalendar | backend/src/controllers/paymentController.js:123-125 | sets the event id and the link, stamps updatedAt with the time of the save, keeps every other field, and keeps a valid record valid |
| ConsultationController.CalendarWriteBack | backend/src/controllers/paymentController.js:121-126 | the booking with the id gets the calendar fields and the new updatedAt; every other booking and the length are unchanged |
| ConsultationController.CalendarWriteBackPreservesStore | backend/src/controllers/paymentController.js:121-126 | the write-back keeps the collection well formed |
| ConsultationController.ConsultationStore.SetCalendarFields | backend/src/controllers/paymentController.js:121-126 | with calendar data the collection becomes `CalendarWriteBack` of the old one at the time of the save; with none it is unchanged |
| PaymentController.OrderOptionsFor | backend/src/controllers/paymentController.js:26-43 | the order has the amount as given, currency INR unless one is given, a receipt "receipt_" followed by digits, and the form as notes |
| PaymentController.CreateRazorpayOrder | backend/src/controllers/paymentController.js:16-64 | an unconfigured gateway gives 500 before anything else, a missing or zero amount gives 400, and a gateway failure gives 500; an order is created iff all checks pass, returning the key id and the gateway's order |
| PaymentController.SignedMessage | backend/src/controllers/paymentController.js:81 | the signed text is the order id, "\|", then the payment id, with an absent id rendered as "undefined" |
| PaymentController.GenuineSignatureAccepted | backend/src/controllers/paymentController.js:79-89 | a signature computed with the same secret over "orderId\|paymentId" passes the check |
| PaymentController.OrEmpty | backend/src/controllers/paymentController.js:97-102 | `value \|\| ''` keeps a non-empty string and turns a missing one into "" |
| PaymentController.BookingFieldsAsWritten | backend/src/controllers/paymentController.js:93-109 | the fields as written: skinType becomes "" when missing; amount 29900, paymentStatus completed, status scheduled |
| PaymentController.AsWrittenRejectsMissingSkinType | backend/src/controllers/paymentController.js:100 | with the fields as written, any form without a skin type fails validation on skinType |
| PaymentController.AsWrittenHairBookingFails | backend/src/controllers/paymentController.js:93-109 | a valid hair-consultation form without a skin type cannot be saved with the fields as written |
| PaymentController.BookingFields | backend/src/controllers/paymentController.js:93-109 | the corrected fields: the name, age, gender and type from the form; email, phone, concerns and products as given or ""; skin type as given or left out; both ids; amount 29900, paymentStatus completed, status scheduled; no date |
| PaymentController.BookingFieldsAcceptValidForm | backend/src/controllers/paymentController.js:93-109 | with the corrected fields, every valid form with both payment ids validates |
| PaymentController.CorrectionOnlyForMissingSkinType | backend/src/controllers/paymentController.js:100 | the corrected fields equal the fields as written iff the form has a skin type |
| PaymentController.AsWrittenAcceptsFormWithSkinType | backend/src/controllers/paymentController.js:93-109 | with the fields as written, a valid form that has a skin type and both payment ids validates |
| PaymentController.SkinTypeSentIsPresent | backend/src/controllers/paymentController.js:100 | with the fields as written, validation passes only if the form has a skin type |
| PaymentController.BookedRecord | backend/src/controllers/paymentController.js:93-109 | for fields as written that validate: the stored booking is valid and has the new id, amount 29900, paymentStatus completed, status scheduled, the two ids from the request, the date two days ahead at 10 AM and "10:00 AM", the form's skin type (which must be there), its other fields with absent ones as "", and empty notes |
| PaymentController.VerifyPayment | backend/src/controllers/paymentController.js:66-153 | an unconfigured gateway gives ConfigError and a wrong signature gives SignatureMismatch, each before anything else; a configured request with a genuine signature always ends in PersistenceError or Booked, and in PersistenceError when the form is missing or has no skin type; no failure changes the collection; a booking appends exactly `BookedRecord`, and the response carries its id, its CONS- reference, its date and time, and the form; a valid form with a skin type, both ids, a fresh id and a successful write is always booked |
| CartContext.Reduce | frontend/src/context/CartContext.jsx:9-29 | SET_LOADING sets only loading; SET_CART replaces the items and ends loading; ADD_TO_CART and UPDATE_CART replace the items and keep loading; CLEAR_CART empties the items; other actions change nothing |
| CartContext.LoadEndsNotLoading | frontend/src/context/CartContext.jsx:43-72 | loading the guest cart ends with loading false and the stored items, or none |
| CartContext.Occurrences | frontend/src/context/CartContext.jsx:178-180 | the number of lines holding a product is zero iff the product is not in the cart |
| CartContext.CountAtLeastLength | frontend/src/context/CartContext.jsx:298-300 | with positive quantities the unit count is at least the number of lines |
| CartContext.NewItem | frontend/src/context/CartContext.jsx:146-152 | a new line carries the product's id and price and quantity 1 |
| CartContext.IncrementMatching | frontend/src/context/CartContext.jsx:184-188 | each line of the product gains one unit; every other line and the length are unchanged |
| CartContext.AddItem | frontend/src/context/CartContext.jsx:178-193 | adding a product already held increments its lines; otherwise a new line is appended at the end |
| CartContext.RemoveItem | frontend/src/context/CartContext.jsx:222-224 | the length drops by the number of lines holding the product, and the result holds exactly the lines of other products |
| CartContext.SetQuantity | frontend/src/context/CartContext.jsx:259-261 | each line of the product gets quantity q; every other line and the length are unchanged |
| CartContext.UpdateQuantity | frontend/src/context/CartContext.jsx:231-263 | a quantity of 0 or less removes the product; otherwise only its quantity is set |
| CartContext.CountsOfAppend | frontend/src/context/CartContext.jsx:298-300 | appending a line adds its quantity to the unit count |
| CartContext.TotalsOfAppend | frontend/src/context/CartContext.jsx:294-296 | appending a line adds price times quantity to the total |
| CartContext.IncrementCount | frontend/src/context/CartContext.jsx:184-188 | incrementing a product adds its number of lines to the unit count |
| CartContext.IncrementTotal | frontend/src/context/CartContext.jsx:184-188 | incrementing a product adds the prices of its lines to the total |
| CartContext.RemoveCount | frontend/src/context/CartContext.jsx:222-224 | removing a product takes exactly its units off the count |
| CartContext.RemoveTotal | frontend/src/context/CartContext.jsx:222-224 | removing a product takes exactly its line totals off the total |
| CartContext.SetQuantityKeepsOthers | frontend/src/context/CartContext.jsx:259-261 | setting a product's quantity leaves the units of all other products unchanged |
| CartContext.SetQuantityMatching | frontend/src/context/CartContext.jsx:259-261 | after setting the quantity, a product held on one line has q units |
| CartContext.UniqueMatchesOne | frontend/src/context/CartContext.jsx:178-180 | with unique product ids, a held product occupies exactly one line |
| CartContext.NoMatchesSumToZero | frontend/src/context/CartContext.jsx:178-180 | a product not in the cart contributes nothing to any of its sums |
| CartContext.AddCountsOne | frontend/src/context/CartContext.jsx:178-196 | with unique product ids, a guest add raises the unit count by exactly 1 |
| CartContext.AddRaisesTotal | frontend/src/context/CartContext.jsx:178-196 | a guest add raises the total by one unit's price: the stored price if the product is held, the product's price otherwise |
| CartContext.AddExistingShape | frontend/src/context/CartContext.jsx:183-188 | adding a held product changes only that line, by one unit; the length is unchanged |
| CartContext.AddKeepsInvariants | frontend/src/context/CartContext.jsx:178-193 | a guest add keeps product ids unique and quantities positive |
| CartContext.RemoveAbsent | frontend/src/context/CartContext.jsx:222-224 | removing a product that is not there changes nothing |
| CartContext.RemoveConcat | frontend/src/context/CartContext.jsx:222-224 | removal distributes over concatenation, so the kept lines stay in order |
| CartContext.AddThenRemove | frontend/src/context/CartContext.jsx:190-224 | adding a product that was not held and then removing it gives back the original cart |
| CartContext.RemoveIdempotent | frontend/src/context/CartContext.jsx:222-224 | after a removal no line holds the product, and removing it again changes nothing |
| CartContext.RemoveKeepsInvariants | frontend/src/context/CartContext.jsx:222-224 | removal keeps product ids unique and quantities positive |
| CartContext.UpdateQuantityShape | frontend/src/context/CartContext.jsx:259-261 | with q > 0 the product's lines hold q, every other line is unchanged, and ids and length are kept |
| CartContext.UpdateQuantityKeepsInvariants | frontend/src/context/CartContext.jsx:231-263 | the quantity update keeps ids unique and never leaves a quantity of 0 or less |
| CartContext.UpdateQuantityCount | frontend/src/context/CartContext.jsx:231-263 | with unique ids, the unit count loses the line's old quantity and gains q when q > 0, or nothing when the line is removed |
| CartContext.Cart.LoadGuestCart | frontend/src/context/CartContext.jsx:68-73 | the state becomes the stored cart, or an empty one, with loading false |
| CartContext.Cart.AddToCart | frontend/src/context/CartContext.jsx:176-197 | the items become `AddItem` of the old items, loading is kept, and the stored cart equals the new items |
| CartContext.Cart.RemoveFromCart | frontend/src/context/CartContext.jsx:221-228 | the items become `RemoveItem` of the old items, and the stored cart equals them |
| CartContext.Cart.UpdateQuantityOf | frontend/src/context/CartContext.jsx:231-264 | the items become `UpdateQuantity` of the old items, and the stored cart equals them |
| CartContext.Cart.ClearCart | frontend/src/context/CartContext.jsx:287-290 | the items are emptied and the stored cart is removed |
| CartContext.Cart.GetCartTotal | frontend/src/context/CartContext.jsx:294-296 | the left fold computes the sum of price times quantity |
| CartContext.Cart.GetCartCount | frontend/src/context/CartContext.jsx:298-300 | the left fold computes the sum of quantities |
| AuthContext.Reduce | frontend/src/context/AuthContext.jsx:7-33 | LOGIN_START sets only loading; LOGIN_SUCCESS sets the user and token from the payload, authenticates, ends loading and keeps error; LOGIN_FAILURE ends loading and sets error, keeping the session; LOGOUT gives a signed-out state with no error field; CLEAR_ERROR nulls only error; others change nothing |
| AuthContext.AuthenticatedIffSessionOpen | frontend/src/context/AuthContext.jsx:7-41 | from the initial state, the user is authenticated iff some LOGIN_SUCCESS has not been followed by a LOGOUT |
| AuthContext.RunKeepsConsistent | frontend/src/context/AuthContext.jsx:12-25 | if every sign-in carries a token and a user, an authenticated state always holds both |
| AuthContext.LoadingOnlyFromStart | frontend/src/context/AuthContext.jsx:9-31 | only LOGIN_START turns loading on; CLEAR_ERROR and unknown actions only keep it |
| AuthContext.Restore | frontend/src/context/AuthContext.jsx:46-58 | a stored token and user give LOGIN_SUCCESS with the parsed user; a missing or empty one gives LOGOUT; a user that does not parse dispatches nothing |
| AuthContext.RestoreFromInitial | frontend/src/context/AuthContext.jsx:35-58 | at startup the session is resumed iff both items are stored and the user parses, with that token, no error and loading over; otherwise user and token are null, and loading stays on only when the parse throws |

## Left out

- HTTP routing, Express plumbing, the database connection, and `populate('user')`: these are wiring. A listed or fetched record carries its user reference unexpanded.
- `parseInt` of the page and limit query strings: the model takes the numbers already parsed. A non-numeric page or limit (NaN) is not modelled.
- The outer catch of `verifyPayment` ("Error verifying payment") and the catch of `getConsultationStats`: with the gateway and the digest as total functions, nothing in the modelled steps throws there.
- Calendar and e-mail side effects in `verifyPayment`: these are fire-and-forget promises. Only the calendar write-back is modelled, as `ConsultationStore.SetCalendarFields`; its own save failure is not.
- The authenticated cart branches, the guest-cart sync on sign-in, and JSON encoding in `localStorage`: these are server calls and storage I/O. A `Cart` models only the guest branch, and its stored cart is a field.
- The `login`, `register` and `logout` functions of the auth context: these are network and storage calls.
- Toast notifications, and the React provider and hook wrappers.
- Time zones and daylight saving time: `setDate`/`setHours` are modelled as exact day arithmetic on a day number.
- Prices are integers: fractional prices and `toFixed` rounding are not modelled.
- The HMAC-SHA256 digest and the gateway's order creation: both are opaque parameters.
- Validate: a field given to `Consultation.create` as `null` is not modelled; the input's `None` is an undefined field, which takes the default where `null` would be stored. `verifyPayment`, the only caller, never sends `null` for a defaulted field, since `\|\| ''` turns it into "".
- Validate: `age` is an integer; a fractional age such as 29.5, which a Number field accepts within 1..120, is not modelled.
- Validate: lower-casing the email maps ASCII letters only; `lowercase: true` uses the full Unicode `toLowerCase`, so non-ASCII capitals in an email are kept as written.
- CastObjectId: follows bson 6, the driver under Mongoose 8, where only 24 hexadecimal digits cast to an ObjectId. The code does not pin a version, and the bson 4 and 5 drivers under Mongoose 6 and 7 also cast any 12-character string. There, a 12-character id, or a 17-character reference, gives 404 "Consultation not found" where `GetById`, `GetByRef` and `UpdateResult` give the 500 error. An issued reference leaves eight characters after `CONS-`, which casts in no version.
- SortNewestFirst: records with equal `createdAt` are kept in collection order. MongoDB leaves the order of equal sort keys unspecified, so two bookings from the same millisecond may come back in either order, and with skip and limit one of them may show on two pages. `ListConsultations` promises that one order, which the database does not guarantee.
- `ConsultationController.ConsultationStore.Create`: uniqueness of `_id` is modelled as a duplicate-key failure. The driver's choice of id is a parameter, not generated.

## Findings

| source | as written | input that shows it | evidently intended | confidence | as-written member | corrected member |
|---|---|---|---|---|---|---|
| backend/src/controllers/paymentController.js:100 | `skinType: consultationData.skinType \|\| ''` passes "" to a field whose enum has no "" | a paid hair consultation whose form has no skin type: name "Asha", age 29, female, type hair | a missing skin type is left out of the record, so that the enum validator accepts it | high, not executed | PaymentController.AsWrittenHairBookingFails | PaymentController.BookingFieldsAcceptValidForm |
| backend/src/controllers/consultationController.js:84-86 | the part of the reference after `CONS-` is cast as an ObjectId, but an issued reference has only eight characters there | the reference CONS-60C72B2F of the booking with id 60c72b2f9b1e8a3f4c8b4567, which the booking page opens the confirmation page with | the confirmation page finds the booking that was issued the reference | high, not executed | ConsultationController.IssuedReferenceNeverFound | ConsultationController.IssuedReferenceFound |

With the line as written, `Consultation.create` rejects every booking whose form has no skin type, which includes every hair consultation booked without first picking a skin type under skin, since the form starts with an empty skin type and switching the type does not clear it. The customer has already paid, and receives "Payment verified but failed to save consultation". `PaymentController.VerifyPayment` builds its fields with `PaymentController.BookingFieldsAsWritten`, as the code does, and states that such a request ends in `PersistenceError`. The corrected `PaymentController.BookingFields` leaves a missing skin type absent, and `PaymentController.CorrectionOnlyForMissingSkinType` shows that it differs from the line as written only there.

The booking page opens the confirmation page with the 13-character reference (frontend/src/pages/Consultation.jsx:95), and that page looks it up by reference (frontend/src/pages/ConsultationConfirmation.jsx:16). What follows `CONS-` is eight characters, which is not an ObjectId, so the cast fails and every lookup answers "Error fetching consultation". `ConsultationController.FindByReference` is the lookup the page needs: it compares reference numbers. Eight hex digits can be shared by two bookings (`ConsultationModel.ReferenceCollision`), and the corrected lookup then returns the first one in collection order.
