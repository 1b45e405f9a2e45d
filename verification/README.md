# Vehicle service management: appointments, billing and service timelines

This project models the backend core of a vehicle-service booking system. Customers book
appointments with garages (providers). A completed appointment is billed from a fixed price
list, payments are recorded on the bill, and bills that lost their appointment link can be
relinked by vehicle and date. The customer's service timeline is derived from their
appointments. Around this pipeline sit the account rules for customers and garages and the
DTO mappers.

The model keeps the program's structure:

- Each Spring Data repository is a class holding its table as a sequence of rows in
  insertion order, together with the next identity value (`Repositories`).
  - `Insert`, `Replace` and `Save` change the table.
  - The derived finders (`findBy...`) are functions of the rows. They compare nullable
    columns with `==`, which is the `IS NULL` Spring Data generates for a null argument.
  - An `Optional` finder with several matches is an error result (`Unique`).
- The `Billing` entity is a class with the same fields and defaults as the source. Its
  stored form is the `BillingRow` value.
- The services are modules whose operations take the repositories they use.
  - Operations that write are methods whose `modifies` clause names exactly the tables
    they change.
  - Read-only operations are functions of the rows.
- Java `null` is `None`, and a nullable `String` is `Text = Option<string>`. String
  concatenation with `null` prints `"null"` (`Show`). `toLowerCase` is ASCII lower-casing.
- Money is whole rupees (`int`).
- Dates and times are represented by their ISO text. Parsing is a function passed in as
  a parameter.
- The clock (`LocalDateTime.now()`) is a `now` parameter.

Each state-changing method is proved against a specification function: `BillingByAppointment`,
`RelinkAll` with `FixableCount`/`LinkedCount`, `WithPaymentStatus`, `Booked`,
`RequestedAppointment`, `WithImage`. The properties of the pipeline are proved about those
functions:

- get-or-create is idempotent;
- the repair never overwrites a link, its counts partition the table, and a second repair
  changes nothing;
- the payment-date ratchet;
- the appointment table's foreign keys stay resolvable.

## Model

| member | source | states |
|---|---|---|
| BillingService.ServiceAmount | backend/src/main/java/Vehicle/example/Management/Service/BillingService.java:210-227 | The price is looked up by the lower-cased service type: oil change 1500, tire rotation 1200, brake service 3500, engine diagnostic 2500, general maintenance 1800. Null or any other type costs 2000. |
| BillingService.BillingProviderName | backend/src/main/java/Vehicle/example/Management/Service/BillingService.java:170-184 | The name on a bill is never empty. It is the garage name if that is non-empty, else the owner name if that is non-empty, else "Service Provider". With no provider it is also "Service Provider". |
| BillingService.SynthesizedBilling | backend/src/main/java/Vehicle/example/Management/Service/BillingService.java:152-192 | A derived bill is unsaved and linked to the appointment id, with status "pending" and no payment. Its amount is `ServiceAmount(serviceType)`. The vehicle and user are copied. The provider id is set only when there is a provider. Date and time text are set exactly when the appointment has them. |
| BillingService.NewBillingFor | backend/src/main/java/Vehicle/example/Management/Service/BillingService.java:153-192 | Filling a fresh `Billing` through its setters yields exactly the row `SynthesizedBilling` describes, and an empty item list. |
| BillingService.CreateBillingFromAppointment | backend/src/main/java/Vehicle/example/Management/Service/BillingService.java:152-195 | Exactly one row is appended: the synthesized bill under the next id. The appointment's provider is looked up through its key. |
| BillingService.CreateBillingForAppointmentId | backend/src/main/java/Vehicle/example/Management/Service/BillingService.java:199-207 | For an unknown appointment id the result is null and the billing table and counter are unchanged. Otherwise one synthesized bill is appended. |
| BillingService.BillingsForUser | backend/src/main/java/Vehicle/example/Management/Service/BillingService.java:26-43 | Returns exactly the bills whose user id equals the argument. |
| BillingService.BillingsForProvider | backend/src/main/java/Vehicle/example/Management/Service/BillingService.java:46-57 | Returns exactly the bills whose provider name equals the argument. |
| BillingService.BillingsWithPaymentStatus | backend/src/main/java/Vehicle/example/Management/Service/BillingService.java:115-131 | Returns exactly the bills whose payment status equals the argument. |
| BillingService.PaidBillIsListedAsPaid | backend/src/main/java/Vehicle/example/Management/Service/BillingService.java:64-79 | A bill just set to "paid" is listed by the paid-status query. |
| BillingService.BillingByAppointment | backend/src/main/java/Vehicle/example/Management/Service/BillingService.java:134-148 | Existing bills for the appointment are returned and nothing is written. With none, exactly one bill is added when the appointment exists with status exactly "completed". That bill is the one `SynthesizedBilling` derives from the appointment and its provider, saved under the next id, and it is the only element of the result. Otherwise nothing is written and the result is empty. Every bill returned is linked to the appointment. |
| BillingService.BillingByAppointmentIdempotent | backend/src/main/java/Vehicle/example/Management/Service/BillingService.java:134-148 | A second get-or-create for the same appointment writes nothing and returns the same list as the first. |
| BillingService.GetBillingByAppointment | backend/src/main/java/Vehicle/example/Management/Service/BillingService.java:134-148 | The new table, the counter and the result are those of `BillingByAppointment`. The double save is one insert. |
| BillingService.WithPaymentStatus | backend/src/main/java/Vehicle/example/Management/Service/BillingService.java:68-74 | The status is replaced. The payment date becomes `now` when the status is exactly "paid" and is kept otherwise. No other field changes. |
| BillingService.WithPayment | backend/src/main/java/Vehicle/example/Management/Service/BillingService.java:86-96 | As `WithPaymentStatus`, and the payment method is replaced too. No other field changes. |
| BillingService.UpdatePaymentStatus | backend/src/main/java/Vehicle/example/Management/Service/BillingService.java:64-79 | An unknown id fails with "Billing record not found with id: ..." and leaves the table unchanged. Otherwise only that row is replaced by its `WithPaymentStatus` form. |
| BillingService.UpdatePayment | backend/src/main/java/Vehicle/example/Management/Service/BillingService.java:82-112 | As `UpdatePaymentStatus` with `WithPayment`. Only the billing table is writable, so the appointment is never modified. |
| BillingService.PaymentDateRatchet | backend/src/main/java/Vehicle/example/Management/Service/BillingService.java:64-79 | After any series of status changes, the payment date is the time of the last change to "paid", or the original date if there was none. A set date is never cleared, and the status is the last one sent. |
| BillingService.LastPaidAtSnoc | backend/src/main/java/Vehicle/example/Management/Service/BillingService.java:70-72 | One more status change moves the last-paid time exactly when it is a change to "paid". |
| BillingService.DatedMatchScan | backend/src/main/java/Vehicle/example/Management/Service/BillingService.java:238-247 | Filtering by vehicle and then taking the first date match is the same as one scan for the first appointment with the same vehicle and a matching date. The same holds for the first same-vehicle appointment. |
| BillingService.BestMatchPrefersDate | backend/src/main/java/Vehicle/example/Management/Service/BillingService.java:236-261 | An orphan bill's match is the first same-vehicle appointment whose date text equals the bill's date (any date when the bill has none). Failing that it is the first same-vehicle appointment. A match exists if and only if a same-vehicle appointment exists. |
| BillingService.Relinked | backend/src/main/java/Vehicle/example/Management/Service/BillingService.java:235-264 | A bill that already has an appointment id is never changed. An orphan takes the id of the first same-vehicle appointment whose date agrees; failing that, the id of the first same-vehicle appointment. With no same-vehicle appointment it stays unlinked. Only the appointment id can change. |
| BillingService.RelinkAll | backend/src/main/java/Vehicle/example/Management/Service/BillingService.java:231-270 | The repaired table has the same length, and each bill is repaired independently. |
| BillingService.RepairCountsPartition | backend/src/main/java/Vehicle/example/Management/Service/BillingService.java:231-270 | fixed + already linked + unmatched = number of bills. |
| BillingService.RepairIsIdempotent | backend/src/main/java/Vehicle/example/Management/Service/BillingService.java:231-270 | After a repair, the number of linked bills grows by exactly the number fixed. A second repair fixes 0 and changes nothing. |
| BillingService.FixOne | backend/src/main/java/Vehicle/example/Management/Service/BillingService.java:236-264 | One loop step changes only position `i`, to its repaired form, and reports whether it fixed that bill. |
| BillingService.FixMissingAppointmentIds | backend/src/main/java/Vehicle/example/Management/Service/BillingService.java:231-270 | The table becomes `RelinkAll` of the old table. The counts are `FixableCount` and `LinkedCount`, and the report is "Fixed f billing records. a records already had appointment IDs." |
| BillingEntity.Billing.constructor | backend/src/main/java/Vehicle/example/Management/List/Billing.java:31-43 | A new bill has every field null except payment status "pending" and an empty item list. |
| BillingEntity.Billing.Of | backend/src/main/java/Vehicle/example/Management/List/Billing.java:45-52 | The six-argument constructor sets exactly user id, vehicle name and number, date, time and amount. Status stays "pending". |
| BillingEntity.Billing.SetServices | backend/src/main/java/Vehicle/example/Management/List/Billing.java:95-100 | The list is stored and every item's `billing` points back at this bill. For a null list, null is stored and no item is touched. Row fields and the items' other fields are unchanged. |
| ServiceLayer.ServiceStatus | backend/src/main/java/Vehicle/example/Management/Service/ServiceLayer.java:71-79 | Case-insensitive mapping: "completed" gives completed; "in-progress" or "confirmed" gives in-progress; null or anything else gives scheduled. Both directions are stated. |
| ServiceLayer.Priority | backend/src/main/java/Vehicle/example/Management/Service/ServiceLayer.java:81-93 | Case-insensitive mapping: emergency or brake service gives high; oil change or tire rotation gives low; anything else, null included, gives medium. Both directions are stated. |
| ServiceLayer.SampleUpdates | backend/src/main/java/Vehicle/example/Management/Service/ServiceLayer.java:95-121 | A timeline has 3 steps when in progress, 5 when completed and 2 otherwise. It starts with the two common steps (check-in 09:00 AM, inspection 09:30 AM). In progress adds the open step "Service In Progress" at 10:00 AM. Completed adds "Service Completed" 11:00 AM, "Quality Check" 11:30 AM and "Ready for Pickup" 12:00 PM. Every step is unsaved and signed "Auto Technician". All steps are completed exactly when the status is not in-progress, and the last step is "Ready for Pickup" exactly when the status is completed. |
| ServiceLayer.ToServiceDetails | backend/src/main/java/Vehicle/example/Management/Service/ServiceLayer.java:54-69 | A derived record copies the vehicle and service type and takes the user's username. Its description is "<type> service for <vehicle>" and its technician is "Technician <owner>" or "Technician Not Assigned". Status, priority and timeline follow the appointment, and the timeline is all completed exactly when the status is not in-progress. |
| ServiceLayer.DerivedServices | backend/src/main/java/Vehicle/example/Management/Service/ServiceLayer.java:43-52 | An unknown username gives []. A known user gets one record per appointment of theirs, in table order. Every record carries the username. |
| ServiceLayer.ServicesForUsername | backend/src/main/java/Vehicle/example/Management/Service/ServiceLayer.java:31-41 | Stored records for the username are returned as they are. With none, the records are derived. Every record returned belongs to the username. |
| ServiceLayer.DerivedTimelineFollowsStatus | backend/src/main/java/Vehicle/example/Management/Service/ServiceLayer.java:43-111 | With no stored records there is one record per appointment. Each record shows the appointment's vehicle. Its timeline ends "Ready for Pickup" exactly when the appointment status reads "completed" in any case. |
| ServiceLayer.ServiceById | backend/src/main/java/Vehicle/example/Management/Service/ServiceLayer.java:127-129 | Returns the record with that id, or null exactly when none has it. |
| ServiceLayer.SavedServiceIsFound | backend/src/main/java/Vehicle/example/Management/Service/ServiceLayer.java:123-129 | A record saved under a fresh id is found again by that id. |
| AppointmentService.Booked | backend/src/main/java/Vehicle/example/Management/Service/AppointmentService.java:32-35 | The booked appointment is linked to the user. A null status becomes "Pending" and a non-null status is kept. Every other field is as given. |
| AppointmentService.BookAppointmentByUsername | backend/src/main/java/Vehicle/example/Management/Service/AppointmentService.java:26-38 | An unknown username fails with "User not found with username: ..." and nothing is written. A provider key naming no provider is refused with no write. Otherwise the booked appointment is saved and returned. The foreign keys stay resolvable. |
| AppointmentService.BookedLinksResolve | backend/src/main/java/Vehicle/example/Management/Service/AppointmentService.java:32-37 | Adding an appointment whose user and provider exist keeps every user and provider key of the table resolvable. |
| Repositories.AppointmentsByProviderOwnername | backend/src/main/java/Vehicle/example/Management/Service/AppointmentService.java:46-48 | Returns exactly the appointments whose provider row has that owner name. |
| Repositories.AppointmentsByProviderId | backend/src/main/java/Vehicle/example/Management/Service/AppointmentService.java:51-53 | Returns exactly the appointments whose provider key is that id. |
| Repositories.AppointmentsByVehicle | backend/src/main/java/Vehicle/example/Management/Repository/AppointmentRepository.java:19 | Returns exactly the appointments with that vehicle name and number. |
| Repositories.AppointmentsByUser | backend/src/main/java/Vehicle/example/Management/Repository/AppointmentRepository.java:14 | Returns exactly the appointments whose user key is that user's id. |
| Repositories.BillingsByAppointmentId | backend/src/main/java/Vehicle/example/Management/Repository/BillingRepo.java:11 | Returns exactly the bills linked to that appointment. |
| Repositories.ServicesByUsername | backend/src/main/java/Vehicle/example/Management/Repository/ServiceRepo.java:9 | Returns exactly the service records with that username. |
| Repositories.Unique | backend/src/main/java/Vehicle/example/Management/Repository/ProviderRepo.java:11-12 | An `Optional` finder gives none for 0 matches and the match for exactly 1. It fails for more than 1. |
| Repositories.ProviderByOwnername | backend/src/main/java/Vehicle/example/Management/Repository/ProviderRepo.java:12 | A found provider has that owner name. None exactly when no provider has it. The lookup fails, with the non-unique message, exactly when two providers have that owner name. |
| Repositories.ProviderByOwnernameAndPassword | backend/src/main/java/Vehicle/example/Management/Repository/ProviderRepo.java:11 | A found provider has both values. None exactly when no provider has both. The lookup fails, with the non-unique message, exactly when two providers have both values. |
| Repositories.UserRepo.Save | backend/src/main/java/Vehicle/example/Management/List/UserList.java:21-27 | An unsaved user is inserted under the next id. A stored id is replaced. An unknown id is refused. A username already held by another row is refused by the unique constraint. |
| Repositories.AppointmentRepo.Save | backend/src/main/java/Vehicle/example/Management/Service/AppointmentService.java:37 | An unsaved appointment is inserted under the next id. A stored id is replaced. An unknown id is refused. Ids stay increasing. |
| Repositories.BillingRepo.Save | backend/src/main/java/Vehicle/example/Management/Service/BillingService.java:59-61 | An unsaved bill is inserted under the next id. A stored id is replaced. An unknown id is refused. |
| Repositories.ServiceRepo.Save | backend/src/main/java/Vehicle/example/Management/Service/ServiceLayer.java:123-125 | An unsaved record is inserted under the next id. A stored id is replaced. An unknown id is refused. |
| Repositories.ProviderRepo.Save | backend/src/main/java/Vehicle/example/Management/List/ProviderList.java:17-19 | A provider with id 0 is inserted under the next id. A stored id is replaced. An unknown id is refused. |
| AppointmentController.RequestedAppointment | backend/src/main/java/Vehicle/example/Management/Controller/AppointmentController.java:42-76 | A bad non-empty date gives the YYYY-MM-DD message, and is checked first. A bad non-empty time then gives the HH:mm message. Otherwise the appointment copies the request, sets date and time only when given, has no status or user, and carries the provider id when one was sent. |
| AppointmentController.BookAppointmentSimple | backend/src/main/java/Vehicle/example/Management/Controller/AppointmentController.java:38-88 | A validation error answers 400 with its message and writes nothing. A booking error answers 400 "Error booking appointment: " + message. Success answers 200 with the saved appointment. Foreign keys stay resolvable. |
| AppointmentController.BookingBuildsRequestAppointment | backend/src/main/java/Vehicle/example/Management/DTO/AppointmentRequestDTO.java:21-50 | The simple booking endpoint and `toAppointment` accept the same requests and build the same appointment, except that the endpoint also sets the provider. |
| AppointmentController.ConvertToDTO | backend/src/main/java/Vehicle/example/Management/Controller/AppointmentController.java:153-170 | The appointment fields are copied, with status "Pending" in place of null. The user fields are null without a user link and come from the linked user otherwise. The provider fields are null without a provider link and come from the linked provider otherwise. |
| AppointmentController.ListResponse | backend/src/main/java/Vehicle/example/Management/Controller/AppointmentController.java:95-104 | The answer is always 200. It is a message exactly when nothing was found, and otherwise one DTO per appointment, in order. |
| AppointmentController.AppointmentsByOwnerResponse | backend/src/main/java/Vehicle/example/Management/Controller/AppointmentController.java:92-109 | An empty result answers "No appointments found for owner: " + name. Otherwise DTO i is the converted i-th appointment of that owner, and every DTO names that owner. |
| AppointmentController.AppointmentsByProviderResponse | backend/src/main/java/Vehicle/example/Management/Controller/AppointmentController.java:113-130 | An empty result answers "No appointments found for provider ID: " + id. Otherwise DTO i is the converted i-th appointment of that provider, and every DTO carries that provider id. |
| AppointmentController.AllAppointmentsResponse | backend/src/main/java/Vehicle/example/Management/Controller/AppointmentController.java:134-150 | An empty table answers "No appointments found". Otherwise DTO i is the converted i-th stored appointment. |
| AppointmentController.UpdateAppointmentStatus | backend/src/main/java/Vehicle/example/Management/Controller/AppointmentController.java:184-208 | An unknown id answers 404 "Appointment not found with ID: " + id and writes nothing. Otherwise only the status of that row changes, to any string or null, and the answer is its DTO. |
| AppointmentRequestDTO.ToAppointment | backend/src/main/java/Vehicle/example/Management/DTO/AppointmentRequestDTO.java:21-50 | The text fields are copied. A null or empty date or time leaves that field unset. A bad date fails with "Invalid date format: " + date, and is checked first; a bad time then fails with "Invalid time format: " + time. Status, user and provider are unset. |
| ServiceClass.Login | backend/src/main/java/Vehicle/example/Management/Service/ServiceClass.java:26-28 | Returns a user exactly when a stored user has that exact username and password. |
| ServiceClass.LoginMatchesStoredPassword | backend/src/main/java/Vehicle/example/Management/Service/ServiceClass.java:26-28 | With unique usernames, login succeeds exactly when the password stored for the username matches. The user found is the one `findByUsername` returns. |
| ServiceClass.ResetPassword | backend/src/main/java/Vehicle/example/Management/Service/ServiceClass.java:34-46 | A known username has only its password overwritten, with answer "Password reset successful!". An unknown one answers "User not found with username: " + username and writes nothing. |
| ServiceClass.ResetThenLogin | backend/src/main/java/Vehicle/example/Management/Service/ServiceClass.java:26-46 | After a reset, login with the new password finds that user. |
| Repositories.UserByUsername | backend/src/main/java/Vehicle/example/Management/Service/ServiceClass.java:47-53 | `getUserByUsername` and `findByUsername` are this one lookup. It returns the user with that username, and none exactly when there is no such user. |
| ServiceClass.UpdateUser | backend/src/main/java/Vehicle/example/Management/Service/ServiceClass.java:56-65 | A null or unknown id fails with no write. A username held by another user fails with no write. Otherwise the record replaces the stored one and is found by its username. |
| ProviderService.WithImage | backend/src/main/java/Vehicle/example/Management/Service/ProviderService.java:26-30 | The image name, type and bytes are set only for a non-null, non-empty upload. Nothing else changes. |
| ProviderService.RegisterProvider | backend/src/main/java/Vehicle/example/Management/Service/ProviderService.java:25-32 | The provider is saved with the image applied, as a new row when its id is 0. |
| ProviderService.Login | backend/src/main/java/Vehicle/example/Management/Service/ProviderService.java:35-38 | A found provider matches owner name and password. Null exactly when none matches. Login fails, with the non-unique message, exactly when two providers match. |
| ProviderService.ResetPassword | backend/src/main/java/Vehicle/example/Management/Service/ProviderService.java:41-50 | The one provider with that owner name gets the new password, with answer "Password reset successful". With none, "Provider not found" and no write. With several, the error propagates and nothing is written. |
| ProviderService.GetProviderById | backend/src/main/java/Vehicle/example/Management/Service/ProviderService.java:53-55 | Returns the provider with that id, or null exactly when there is none. |
| ProviderService.ProviderImage | backend/src/main/java/Vehicle/example/Management/Service/ProviderService.java:58-68 | Returns the bytes exactly when the provider exists and its image data is non-null and non-empty; null otherwise. |
| ProviderService.RegisteredImageIsServed | backend/src/main/java/Vehicle/example/Management/Service/ProviderService.java:25-68 | A provider registered with a non-empty image gets those bytes back from the image lookup. One registered without an image keeps the image it had. |
| ProviderService.UpdateProvider | backend/src/main/java/Vehicle/example/Management/Service/ProviderService.java:71-81 | An unknown id fails with "Provider not found with id: " + id and no write. Otherwise the record replaces the stored one and is found by its id. |
| Mapper.ToAppointmentDTO | backend/src/main/java/Vehicle/example/Management/DTO/Mapper.java:12-21 | Id, vehicle name, service type, status, date and time are copied unchanged. |
| Mapper.ToUserDTO | backend/src/main/java/Vehicle/example/Management/DTO/Mapper.java:23-36 | Id, name and username are copied. A null collection gives []. Otherwise there is one summary per appointment, same length and order. |
| Mapper.UserDTOListsOwnAppointments | backend/src/main/java/Vehicle/example/Management/DTO/Mapper.java:29-34 | Each summary in the DTO of a user's appointments summarises a stored appointment of that user. |
| Mapper.BookingExtendsUserDTO | backend/src/main/java/Vehicle/example/Management/DTO/Mapper.java:29-34 | Booking one more appointment for the user appends exactly its summary to the user's DTO. |
| Mapper.ToUserWithoutAppointmentsDTO | backend/src/main/java/Vehicle/example/Management/DTO/Mapper.java:37-54 | Every scalar field is copied, password and image metadata included. |
| Pipeline.BillableIsShownCompleted | backend/src/main/java/Vehicle/example/Management/Service/BillingService.java:140-141 | An appointment that get-or-create would bill is shown as completed by the timeline, ending "Ready for Pickup". |
| Pipeline.CapitalisedCompletedIsNotBilled | backend/src/main/java/Vehicle/example/Management/Service/ServiceLayer.java:71-75 | The converse fails. A status "Completed" is shown as completed by the case-insensitive timeline, but the case-sensitive billing rule creates no bill for it. |
| Seqs.FilterSnoc | backend/src/main/java/Vehicle/example/Management/Repository/BillingRepo.java:11 | Appending one row extends a finder's result by that row exactly when it matches. |
| Seqs.FilterHasTwo | backend/src/main/java/Vehicle/example/Management/Repository/ProviderRepo.java:11-12 | A finder returns two or more rows exactly when two rows of the table match; this is when an `Optional` finder fails. |

## Left out

- Dangling foreign keys: a key that names no row is treated as "no linked row" (`LinkedProvider`, `LinkedUser`), where Hibernate would fail when the lazy link is loaded. Bookings keep keys resolvable (`LinksResolve`) and no modelled operation deletes rows, so this case does not arise from the modelled operations.
- Exception messages from the persistence layer are fixed placeholder texts, not Hibernate's actual wording: `NonUniqueMessage`, `StaleRowMessage`, `DuplicateKeyMessage`, `MissingProviderMessage` and `NullIdMessage`.
- Repositories.UserRepo.Save: the unique username constraint also treats two null usernames as a clash, where SQL allows several NULLs.
- `save` of a row whose id is not stored is modelled as a refusal. Older Hibernate versions insert such a row under a new id instead.
- The forced loads of lazy collections (`getServices().size()`), the logging with `System.out.println`, and `updateAppointmentStatusIfNeeded`, which only reads and prints, have no observable effect here.
- The 500 answers (`catch (Exception e)`) of the controller: no modelled operation raises a checked or unexpected exception.
- `getAllProviders` in the controller and in `ProviderService`, and `getList` in `ServiceClass`, return a whole table as it is stored; they are not separate members. `getUserById` is the id lookup `Repositories.UserIndex` (a single row, or null). `saveUser` is `Repositories.UserRepo.Save`.
- `LocalDate.parse` and `LocalTime.parse` are parameters. The model does not check that the stored text of a parsed date equals the input.
- The timeline's `Update` rows saved through a `ServiceDetails` cascade keep no ids of their own.
- A `Double` amount is whole rupees: fractional prices and floating-point rounding are not represented.
- Concurrency and transactions: each service operation is atomic.
- Password hashing: passwords are compared and stored as given.
- The React front end, including its separate dollar price table and total normalisation, is not part of this model.
- `bookAppointmentByUsername` mutates the caller's `Appointment` object. The model returns the booked value instead, so aliasing of that object is not represented.
