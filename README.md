# Verified model of the ShipXpress logistics services and the YapPerce marketplace

This project models, in Dafny, the decision logic of two cooperating systems.

- **ShipXpress** is a set of GraphQL services over one Postgres database. It has customers, drivers, vehicles, shipments, tracking updates and users.
  - Its shipment service creates shipments. When the marketplace knows the customer but ShipXpress does not, it first copies that customer in (a shadow customer).
  - It backfills missing destinations from the customer's address.
  - On a real status change it appends a tracking row and posts a webhook to the marketplace order that carries the shipment.
  - Every service updates rows through the same sparse `UPDATE ... SET` builder. That builder is modelled once, in `Sql`.
- **YapPerce** is a marketplace. Its order, payment and user services use MySQL.
  - The order service creates orders and updates product stock item by item. It sends paid orders to ShipXpress, reads the latest tracking status back, and takes status webhooks.
  - The marketplace also has a ShipXpress stand-in that keeps shipments in memory and advances them on timers.
  - Its storefront has a cart store and a table that maps backend status strings to display statuses.

Database tables are maps from primary key to row, kept beside their auto-increment or serial counter in a class per database. A resolver that writes becomes a `method` that modifies those fields, and its `ensures` states the whole new state. A resolver that only computes becomes a `function`, and lemmas beside it state what the source promises. Calls to sibling services, the hashing library and the clock become parameters: the value the call returned.

Module `Choreography` connects the two systems. It proves two things:

- The order service's "latest" tracking status is the OLDEST row of the list that the tracking service returns, because that list is newest first and the order service reads its last entry. This is recorded under "## Findings", beside a corrected reader that takes the first entry and gets the newest row.
- ShipXpress's status webhook reaches exactly the order it names.

## Model

| member | source | states |
|---|---|---|
| Sql.LookupAbsent | TUGASBESAR_IAE_SHIPMEN_KELOMPOK2_SI4708-main/services/customer-service/src/resolvers.ts:37 | a property the arguments object does not have reads as `undefined` |
| Sql.LookupAt | TUGASBESAR_IAE_SHIPMEN_KELOMPOK2_SI4708-main/services/customer-service/src/resolvers.ts:43 | with distinct property names, `updates[key]` is the argument bound to that key |
| Sql.IndexOf | TUGASBESAR_IAE_SHIPMEN_KELOMPOK2_SI4708-main/services/shipment-service/src/resolvers.ts:286 | a present property is found at a position holding that key |
| Sql.Assign | TUGASBESAR_IAE_SHIPMEN_KELOMPOK2_SI4708-main/services/shipment-service/src/resolvers.ts:286 | `updates[key] = v` makes `updates[key]` read `v`, adds the key if missing, and leaves every other property as it was |
| Sql.Supplied | TUGASBESAR_IAE_SHIPMEN_KELOMPOK2_SI4708-main/services/customer-service/src/resolvers.ts:42-48 | the supplied columns are among the object's keys and no more than its properties |
| Sql.FragmentsSnoc | TUGASBESAR_IAE_SHIPMEN_KELOMPOK2_SI4708-main/services/customer-service/src/resolvers.ts:44-46 | one more supplied column appends its fragment `col = $(n+1)` and its value |
| Sql.BuildSetList | TUGASBESAR_IAE_SHIPMEN_KELOMPOK2_SI4708-main/services/customer-service/src/resolvers.ts:38-48 | the loop yields one fragment `col = $k` and one value per supplied column, numbered from 1 in key order, and the id's placeholder number is one past the last |
| Sql.SuppliedExactly | TUGASBESAR_IAE_SHIPMEN_KELOMPOK2_SI4708-main/services/customer-service/src/resolvers.ts:43 | a column is in the SET list exactly when its argument is not `undefined`, and then with that argument's value |
| Sql.PlaceholderInjective | TUGASBESAR_IAE_SHIPMEN_KELOMPOK2_SI4708-main/services/customer-service/src/resolvers.ts:59-61 | distinct numbers give distinct placeholders |
| Sql.SparseUpdateBinding | TUGASBESAR_IAE_SHIPMEN_KELOMPOK2_SI4708-main/services/customer-service/src/resolvers.ts:59-63 | the k-th supplied column is bound at `$(k+1)` to its own value and the id at `$(n+1)`, a placeholder no fragment uses |
| Sql.ApplySet | TUGASBESAR_IAE_SHIPMEN_KELOMPOK2_SI4708-main/services/customer-service/src/resolvers.ts:60-63 | after the SET list the row has its old columns plus the assigned ones |
| Sql.ApplySetEffect | TUGASBESAR_IAE_SHIPMEN_KELOMPOK2_SI4708-main/services/customer-service/src/resolvers.ts:60-63 | each assigned column holds its value and every other column is unchanged |
| Sql.SuppliedDistinct | TUGASBESAR_IAE_SHIPMEN_KELOMPOK2_SI4708-main/services/customer-service/src/resolvers.ts:42-48 | an object with distinct property names yields a SET list with distinct columns |
| Sql.UpdateRow | TUGASBESAR_IAE_SHIPMEN_KELOMPOK2_SI4708-main/services/customer-service/src/resolvers.ts:60-63 | the UPDATE keeps the table's keys and leaves every other row unchanged |
| Sql.Project | TUGASBESAR_IAE_SHIPMEN_KELOMPOK2_SI4708-main/services/auth-service/src/resolvers.ts:12 | a column projection keeps exactly the listed columns the row has |
| Sql.MaxKey | TUGASBESAR_IAE_SHIPMEN_KELOMPOK2_SI4708-main/services/shipment-service/src/resolvers.ts:130-132 | `MAX(customer_id)` is at least every key and is itself a key of a non-empty table |
| Text.ToLower | TUGASBESAR_IAE_SHIPMEN_KELOMPOK2_SI4708-main/services/shipment-service/src/resolvers.ts:279 | `toLowerCase` keeps the length and lower-cases each ASCII letter in place |
| Text.ToLowerIdempotent | TUGASBESAR_IAE_SHIPMEN_KELOMPOK2_SI4708-main/services/shipment-service/src/resolvers.ts:279 | lower-casing twice equals lower-casing once |
| Text.TrimStart | YapPerce_IAE-main/services/order-service/graphql/resolvers.js:155 | removes exactly the leading JavaScript white space |
| Text.TrimEnd | YapPerce_IAE-main/services/order-service/graphql/resolvers.js:155 | removes exactly the trailing JavaScript white space |
| Text.TrimEmptyIffBlank | YapPerce_IAE-main/services/order-service/graphql/resolvers.js:155 | `trim()` gives '' exactly for a string of white space only |
| Text.DigitValue | TUGASBESAR_IAE_SHIPMEN_KELOMPOK2_SI4708-main/services/shipment-service/src/resolvers.ts:177-178 | a digit character's value renders back to that character |
| Text.DecShape | TUGASBESAR_IAE_SHIPMEN_KELOMPOK2_SI4708-main/services/shipment-service/src/resolvers.ts:177-178 | `toString()` of a number is a non-empty digit string without a leading zero whose value is the number |
| Text.DecRoundTrip | TUGASBESAR_IAE_SHIPMEN_KELOMPOK2_SI4708-main/services/shipment-service/src/resolvers.ts:177-178 | reading back the rendered id gives the id |
| Text.DigitsRender | TUGASBESAR_IAE_SHIPMEN_KELOMPOK2_SI4708-main/services/shipment-service/src/resolvers.ts:177-178 | a canonical digit string is the rendering of its value |
| Text.ParseDecCanonical | YapPerce_IAE-main/services/order-service/index.js:33-36 | an id text that names a row is that row id's rendering |
| Text.DecInjective | TUGASBESAR_IAE_SHIPMEN_KELOMPOK2_SI4708-main/services/shipment-service/src/resolvers.ts:159 | different ids render differently |
| ShipXpressDb.Database.constructor | TUGASBESAR_IAE_SHIPMEN_KELOMPOK2_SI4708-main/services/customer-service/src/resolvers.ts:26-29 | every table starts empty with its serial sequence at 1 |
| ShipXpressDb.Database.InsertCustomer | TUGASBESAR_IAE_SHIPMEN_KELOMPOK2_SI4708-main/services/customer-service/src/resolvers.ts:26-29 | the row is stored under the customer sequence's next value, which was free, with its key column set, and the sequence advances |
| ShipXpressDb.Database.InsertShipment | TUGASBESAR_IAE_SHIPMEN_KELOMPOK2_SI4708-main/services/shipment-service/src/resolvers.ts:244-247 | the shipment is stored under the next free serial id with `shipment_id` set; the sequence advances |
| ShipXpressDb.Database.InsertTracking | TUGASBESAR_IAE_SHIPMEN_KELOMPOK2_SI4708-main/services/tracking-service/src/resolvers.ts:33-36 | the tracking row is stored under the next free serial id with `tracking_id` set; the sequence advances |
| ShipXpressDb.Database.InsertDriver | TUGASBESAR_IAE_SHIPMEN_KELOMPOK2_SI4708-main/services/driver-service/src/resolvers.ts:32-35 | the driver is stored under the next free serial id with `driver_id` set; the sequence advances |
| ShipXpressDb.Database.InsertVehicle | TUGASBESAR_IAE_SHIPMEN_KELOMPOK2_SI4708-main/services/vehicle-service/src/resolvers.ts:85-91 | the vehicle is stored under the next free serial id with `vehicle_id` set; the sequence advances |
| ShipXpressDb.Database.InsertUser | TUGASBESAR_IAE_SHIPMEN_KELOMPOK2_SI4708-main/services/auth-service/src/resolvers.ts:47-50 | the user is stored under the next free serial id with `user_id` set; the sequence advances |
| ShipXpressDb.RowAtInserted | TUGASBESAR_IAE_SHIPMEN_KELOMPOK2_SI4708-main/services/shipment-service/src/resolvers.ts:193-197 | a row inserted under an id is what the lookup by that id reads back, and no other id reads differently |
| ShipXpressDb.RowAtUpdated | TUGASBESAR_IAE_SHIPMEN_KELOMPOK2_SI4708-main/services/tracking-service/src/resolvers.ts:53-63 | after the UPDATE of one id, the lookup by that id reads the stored row with the SET list applied (null for an unknown id), and every other id reads as before |
| ShipXpressDb.ReferenceResolves | TUGASBESAR_IAE_SHIPMEN_KELOMPOK2_SI4708-main/services/shipment-service/src/resolvers.ts:387-394 | the `{ id }` stub built from a row's reference column resolves by its id to the referenced row; a missing, null or zero reference gives null |
| ShipXpressDb.DeletedTwice | TUGASBESAR_IAE_SHIPMEN_KELOMPOK2_SI4708-main/services/shipment-service/src/resolvers.ts:374-377 | a second DELETE of the same id answers false and changes nothing, and the deleted id no longer reads back |
| ShipXpressDb.DeleteUndoesInsert | TUGASBESAR_IAE_SHIPMEN_KELOMPOK2_SI4708-main/services/shipment-service/src/resolvers.ts:374-377 | deleting a row just inserted under a fresh id restores the table and answers true |
| CustomerService.WithCType | TUGASBESAR_IAE_SHIPMEN_KELOMPOK2_SI4708-main/services/customer-service/src/resolvers.ts:8-11 | the answer keeps every stored column and adds `C_type` equal to the folded column `c_type` |
| CustomerService.ListCustomers | TUGASBESAR_IAE_SHIPMEN_KELOMPOK2_SI4708-main/services/customer-service/src/resolvers.ts:5-12 | every stored customer is listed exactly once, with all its stored columns and `C_type` equal to its `c_type` |
| CustomerService.Customer | TUGASBESAR_IAE_SHIPMEN_KELOMPOK2_SI4708-main/services/customer-service/src/resolvers.ts:13-21 | null exactly for an unknown id, otherwise the stored row with `C_type`; `__resolveReference` (lines 76-86) is the same lookup |
| CustomerService.CreateCustomer | TUGASBESAR_IAE_SHIPMEN_KELOMPOK2_SI4708-main/services/customer-service/src/resolvers.ts:24-35 | exactly one row is added under the fresh id, and the answer's `C_type` is the given type |
| CustomerService.UpdateCustomer | TUGASBESAR_IAE_SHIPMEN_KELOMPOK2_SI4708-main/services/customer-service/src/resolvers.ts:36-69 | no statement without a supplied argument; otherwise the one UPDATE sets exactly the supplied columns, with `$1..$n` and the id last; an unknown id ends in the TypeError of mapping the missing row |
| CustomerService.DeleteCustomer | TUGASBESAR_IAE_SHIPMEN_KELOMPOK2_SI4708-main/services/customer-service/src/resolvers.ts:70-73 | true exactly when the row existed; the row is gone afterwards and the rest is unchanged |
| DriverService.Driver | TUGASBESAR_IAE_SHIPMEN_KELOMPOK2_SI4708-main/services/driver-service/src/resolvers.ts:11-20 | null for an unknown id; a truthy stored photo is kept, a falsy one becomes the ui-avatars URL of `name_driver`; every other column as stored |
| DriverService.DriverRow | TUGASBESAR_IAE_SHIPMEN_KELOMPOK2_SI4708-main/services/driver-service/src/resolvers.ts:31-35 | the required fields are stored as given; a falsy vehicle id or photo is stored as null |
| DriverService.CreateDriver | TUGASBESAR_IAE_SHIPMEN_KELOMPOK2_SI4708-main/services/driver-service/src/resolvers.ts:30-37 | exactly one row is added under the fresh id and returned as stored, without an avatar |
| DriverService.UpdateDriver | TUGASBESAR_IAE_SHIPMEN_KELOMPOK2_SI4708-main/services/driver-service/src/resolvers.ts:38-63 | no statement without a supplied argument; otherwise the one UPDATE sets exactly the supplied columns; the answer is the stored row, none exactly for an unknown id |
| DriverService.DeleteDriver | TUGASBESAR_IAE_SHIPMEN_KELOMPOK2_SI4708-main/services/driver-service/src/resolvers.ts:64-67 | true exactly when the row existed; the row is gone afterwards |
| DriverService.VehicleOf | TUGASBESAR_IAE_SHIPMEN_KELOMPOK2_SI4708-main/services/driver-service/src/resolvers.ts:76-80 | a `{ vehicle_id }` stub exactly when the driver's vehicle id is truthy |
| VehicleService.QueriedVehicle | TUGASBESAR_IAE_SHIPMEN_KELOMPOK2_SI4708-main/services/vehicle-service/src/resolvers.ts:21-27 | `V_type` is `v_type` when truthy, else a truthy `V_type`, else "Truck"; the other columns unchanged |
| VehicleService.StoredVehicle | TUGASBESAR_IAE_SHIPMEN_KELOMPOK2_SI4708-main/services/vehicle-service/src/resolvers.ts:171-179 | `V_type` is `v_type` when truthy, else "Truck"; the other columns unchanged |
| VehicleService.MappingsAgree | TUGASBESAR_IAE_SHIPMEN_KELOMPOK2_SI4708-main/services/vehicle-service/src/resolvers.ts:21-27 | on a row read from the table the two `V_type` mappings give the same answer |
| VehicleService.Vehicle | TUGASBESAR_IAE_SHIPMEN_KELOMPOK2_SI4708-main/services/vehicle-service/src/resolvers.ts:39-55 | null exactly for an unknown id; otherwise the mapped row, whose `V_type` is always truthy |
| VehicleService.ResolveReference | TUGASBESAR_IAE_SHIPMEN_KELOMPOK2_SI4708-main/services/vehicle-service/src/resolvers.ts:197-217 | null exactly for an unknown id; otherwise the row with `V_type` from `v_type` or "Truck" |
| VehicleService.TypeToSave | TUGASBESAR_IAE_SHIPMEN_KELOMPOK2_SI4708-main/services/vehicle-service/src/resolvers.ts:81 | the given type when non-empty, else "Truck" |
| VehicleService.CreateVehicle | TUGASBESAR_IAE_SHIPMEN_KELOMPOK2_SI4708-main/services/vehicle-service/src/resolvers.ts:77-103 | exactly one row is added under the fresh id with the type to save, and the answer's `V_type` is truthy |
| VehicleService.UpdateVehicle | TUGASBESAR_IAE_SHIPMEN_KELOMPOK2_SI4708-main/services/vehicle-service/src/resolvers.ts:105-181 | without a supplied argument nothing is written and an unknown id gives null; otherwise exactly the supplied columns are set and an unknown id ends in the TypeError of mapping the missing row |
| VehicleService.Affirmed | TUGASBESAR_IAE_SHIPMEN_KELOMPOK2_SI4708-main/services/vehicle-service/src/resolvers.ts:189 | true exactly when a row count is present and positive |
| VehicleService.DeleteVehicle | TUGASBESAR_IAE_SHIPMEN_KELOMPOK2_SI4708-main/services/vehicle-service/src/resolvers.ts:183-191 | true exactly when the row existed; the row is gone afterwards |
| TrackingService.CreationRow | TUGASBESAR_IAE_SHIPMEN_KELOMPOK2_SI4708-main/services/tracking-service/src/resolvers.ts:32-35 | shipment, location and status are stored as given; each optional field is null exactly when the argument is falsy, and otherwise is the argument |
| TrackingService.CreateTrackingUpdate | TUGASBESAR_IAE_SHIPMEN_KELOMPOK2_SI4708-main/services/tracking-service/src/resolvers.ts:31-38 | exactly one row is added under the fresh id and returned |
| TrackingService.UpdateTrackingUpdate | TUGASBESAR_IAE_SHIPMEN_KELOMPOK2_SI4708-main/services/tracking-service/src/resolvers.ts:39-64 | no statement without a supplied argument; otherwise the one UPDATE sets exactly the supplied columns; the answer is present exactly for a known id |
| TrackingService.DeleteTrackingUpdate | TUGASBESAR_IAE_SHIPMEN_KELOMPOK2_SI4708-main/services/tracking-service/src/resolvers.ts:65-68 | true exactly when the row existed; the row is gone afterwards |
| TrackingService.ShipmentOf | TUGASBESAR_IAE_SHIPMEN_KELOMPOK2_SI4708-main/services/tracking-service/src/resolvers.ts:77-80 | a `{ shipment_id }` stub exactly when the row's shipment id is truthy |
| TrackingService.PrecedesTotal | TUGASBESAR_IAE_SHIPMEN_KELOMPOK2_SI4708-main/services/tracking-service/src/resolvers.ts:17 | `ORDER BY updated_at DESC, tracking_id DESC` puts exactly one of two distinct rows first |
| TrackingService.PrecedesTransitive | TUGASBESAR_IAE_SHIPMEN_KELOMPOK2_SI4708-main/services/tracking-service/src/resolvers.ts:17 | the same order is transitive |
| TrackingService.InsertSorted | TUGASBESAR_IAE_SHIPMEN_KELOMPOK2_SI4708-main/services/tracking-service/src/resolvers.ts:17 | inserting a row into a sorted list gives a sorted list holding the same rows plus the new one |
| TrackingService.TrackingUpdatesByShipment | TUGASBESAR_IAE_SHIPMEN_KELOMPOK2_SI4708-main/services/tracking-service/src/resolvers.ts:15-21 | the answer lists exactly the shipment's rows, newest `updated_at` first with ties broken by larger id |
| TrackingService.SortedDistinct | TUGASBESAR_IAE_SHIPMEN_KELOMPOK2_SI4708-main/services/tracking-service/src/resolvers.ts:15-21 | the list holds each row once |
| TrackingService.LastIsOldest | TUGASBESAR_IAE_SHIPMEN_KELOMPOK2_SI4708-main/services/tracking-service/src/resolvers.ts:15-21 | the last row listed has the oldest `updated_at` of the list |
| TrackingService.FirstIsNewest | TUGASBESAR_IAE_SHIPMEN_KELOMPOK2_SI4708-main/services/tracking-service/src/resolvers.ts:15-21 | the first row listed comes before every other row, and no other row has a later `updated_at` |
| AuthService.Public | TUGASBESAR_IAE_SHIPMEN_KELOMPOK2_SI4708-main/services/auth-service/src/resolvers.ts:48 | the returned columns are exactly the stored public ones, never the password hash |
| AuthService.RoleDefaultOnlyWhenAbsent | TUGASBESAR_IAE_SHIPMEN_KELOMPOK2_SI4708-main/services/auth-service/src/resolvers.ts:31 | the stored role is "user" exactly when no role or "user" was given; a role given as null is stored as null, since the destructuring default applies to `undefined` only |
| AuthService.Register | TUGASBESAR_IAE_SHIPMEN_KELOMPOK2_SI4708-main/services/auth-service/src/resolvers.ts:30-62 | a taken email or username is refused with nothing written; otherwise one user is added with the hash, `full_name || null` and the role, and answered without the hash |
| AuthService.RegisteredDefaults | TUGASBESAR_IAE_SHIPMEN_KELOMPOK2_SI4708-main/services/auth-service/src/resolvers.ts:31-50 | the stored role is "user" exactly when none was given, and the full name is null exactly when a falsy one was given |
| AuthService.Login | TUGASBESAR_IAE_SHIPMEN_KELOMPOK2_SI4708-main/services/auth-service/src/resolvers.ts:63-96 | an unknown email and a wrong password both fail with the same message; success names a user with that email whose hash matches, answered without the hash; when the email is known and every user holding it matches the password, login succeeds |
| AuthService.LoginUnique | TUGASBESAR_IAE_SHIPMEN_KELOMPOK2_SI4708-main/services/auth-service/src/resolvers.ts:67-83 | with unique emails, login can succeed exactly when the password matches that one user's hash |
| AuthService.BuildUserUpdate | TUGASBESAR_IAE_SHIPMEN_KELOMPOK2_SI4708-main/services/auth-service/src/resolvers.ts:99-126 | no statement without a supplied argument; otherwise the supplied columns, then `updated_at = CURRENT_TIMESTAMP`, with the id bound last |
| AuthService.UpdateUser | TUGASBESAR_IAE_SHIPMEN_KELOMPOK2_SI4708-main/services/auth-service/src/resolvers.ts:97-129 | nothing is written without a supplied argument; otherwise the supplied columns and `updated_at` are set; the answer is the public row, present exactly for a known id |
| AuthService.ChangePassword | TUGASBESAR_IAE_SHIPMEN_KELOMPOK2_SI4708-main/services/auth-service/src/resolvers.ts:130-162 | an unknown id and a wrong old password fail with nothing written; otherwise only that user's hash and `updated_at` change |
| AuthService.DeleteUser | TUGASBESAR_IAE_SHIPMEN_KELOMPOK2_SI4708-main/services/auth-service/src/resolvers.ts:163-166 | true exactly when the row existed; the row is gone afterwards |
| ShipmentService.NormalizedEffect | TUGASBESAR_IAE_SHIPMEN_KELOMPOK2_SI4708-main/services/shipment-service/src/resolvers.ts:13-17 | a normalized row keeps every stored column and adds `S_type` equal to the folded `s_type` |
| ShipmentService.ShadowCustomerDefaults | TUGASBESAR_IAE_SHIPMEN_KELOMPOK2_SI4708-main/services/shipment-service/src/resolvers.ts:118-128 | a copied customer's phone and address are always truthy, "-" standing for a missing one, and its type is "Marketplace" |
| ShipmentService.EnsureCustomerFromMarketplace | TUGASBESAR_IAE_SHIPMEN_KELOMPOK2_SI4708-main/services/shipment-service/src/resolvers.ts:107-135 | an existing customer is returned unchanged; a missing marketplace user fails with nothing written; otherwise the user is inserted under its own id and the serial moves to the largest id |
| ShipmentService.NeedsDestinationExact | TUGASBESAR_IAE_SHIPMEN_KELOMPOK2_SI4708-main/services/shipment-service/src/resolvers.ts:240 | the destination is replaced exactly when it is "-" or only white space |
| ShipmentService.FinalDestinationCases | TUGASBESAR_IAE_SHIPMEN_KELOMPOK2_SI4708-main/services/shipment-service/src/resolvers.ts:239-242 | a usable destination is kept, otherwise the customer's truthy address, otherwise "-"; the stored destination is never falsy |
| ShipmentService.TrackingRow | TUGASBESAR_IAE_SHIPMEN_KELOMPOK2_SI4708-main/services/shipment-service/src/resolvers.ts:252-264 | the tracking row carries the shipment, location and status; its address falls back to the customer's; item name and barcode are set exactly when an order or payment exists |
| ShipmentService.AppendShipment | TUGASBESAR_IAE_SHIPMEN_KELOMPOK2_SI4708-main/services/shipment-service/src/resolvers.ts:239-264 | exactly one shipment row with the final destination and one tracking row at the origin with the shipment's status are appended under fresh ids; the answer is the normalized shipment |
| ShipmentService.CreateShipment | TUGASBESAR_IAE_SHIPMEN_KELOMPOK2_SI4708-main/services/shipment-service/src/resolvers.ts:221-267 | fails exactly when the customer cannot be ensured, writing nothing; otherwise the customers table is unchanged for a known customer and gains exactly the shadow customer for an unknown one (the serial then one past the largest id), and exactly one shipment and one tracking row at the origin with the shipment's status are added |
| ShipmentService.StatusChangeIgnoresCase | TUGASBESAR_IAE_SHIPMEN_KELOMPOK2_SI4708-main/services/shipment-service/src/resolvers.ts:277-279 | a status counts as changed exactly when it is non-empty and differs from the old one other than in letter case |
| ShipmentService.LocationFor | TUGASBESAR_IAE_SHIPMEN_KELOMPOK2_SI4708-main/services/shipment-service/src/resolvers.ts:333-344 | the location is one of the five fixed texts |
| ShipmentService.LocationIgnoresCase | TUGASBESAR_IAE_SHIPMEN_KELOMPOK2_SI4708-main/services/shipment-service/src/resolvers.ts:333-344 | the location depends on the status only up to letter case |
| ShipmentService.Backfilled | TUGASBESAR_IAE_SHIPMEN_KELOMPOK2_SI4708-main/services/shipment-service/src/resolvers.ts:281-288 | the backfill changes no argument except the destination, and keeps the argument names distinct |
| ShipmentService.BackfillEffect | TUGASBESAR_IAE_SHIPMEN_KELOMPOK2_SI4708-main/services/shipment-service/src/resolvers.ts:281-288 | the customer's address is written exactly when the backfill is wanted and the address is truthy and not "-" |
| ShipmentService.FirstMatch | TUGASBESAR_IAE_SHIPMEN_KELOMPOK2_SI4708-main/services/shipment-service/src/resolvers.ts:157-162 | no order id exactly when no order carries the shipment id |
| ShipmentService.FirstMatchIsFirst | TUGASBESAR_IAE_SHIPMEN_KELOMPOK2_SI4708-main/services/shipment-service/src/resolvers.ts:157-162 | the id found is that of the first order carrying the shipment id |
| ShipmentService.FindOrderIdByShipmentId | TUGASBESAR_IAE_SHIPMEN_KELOMPOK2_SI4708-main/services/shipment-service/src/resolvers.ts:137-167 | a failed call gives null; otherwise the first matching order's id |
| ShipmentService.WebhookFor | TUGASBESAR_IAE_SHIPMEN_KELOMPOK2_SI4708-main/services/shipment-service/src/resolvers.ts:169-185 | a webhook is sent exactly when there is an order id, with both ids as decimal text and the status |
| ShipmentService.RecordStatusChange | TUGASBESAR_IAE_SHIPMEN_KELOMPOK2_SI4708-main/services/shipment-service/src/resolvers.ts:320-367 | one tracking row for the new status is appended, and the webhook goes to the order carrying the shipment |
| ShipmentService.UpdateShipment | TUGASBESAR_IAE_SHIPMEN_KELOMPOK2_SI4708-main/services/shipment-service/src/resolvers.ts:268-373 | an unknown id fails with nothing written; the supplied columns, after the backfill, are set; a tracking row and a webhook follow exactly when the status changed other than in case |
| ShipmentService.DeleteShipment | TUGASBESAR_IAE_SHIPMEN_KELOMPOK2_SI4708-main/services/shipment-service/src/resolvers.ts:374-377 | true exactly when the row existed; the row is gone afterwards |
| OrderService.OrderDb.constructor | YapPerce_IAE-main/services/order-service/graphql/resolvers.js:265-277 | both tables start empty with their auto-increment counters at 1 |
| OrderService.OrderDb.InsertOrder | YapPerce_IAE-main/services/order-service/graphql/resolvers.js:265-270 | the order row takes the free counter value (`insertId`) with NULL shipment columns, and the counter advances |
| OrderService.OrderDb.InsertItem | YapPerce_IAE-main/services/order-service/graphql/resolvers.js:274-277 | the item row carries the order id, product, quantity and price under a free key |
| OrderService.Catalog.constructor | YapPerce_IAE-main/services/order-service/graphql/resolvers.js:80-89 | the product service's stock as the order service reads it |
| OrderService.SumOrder | YapPerce_IAE-main/services/order-service/graphql/resolvers.js:259-262 | the loop's total is the sum of price times quantity over the items |
| OrderService.TotalAppend | YapPerce_IAE-main/services/order-service/graphql/resolvers.js:259-262 | the total of two item lists is the sum of their totals |
| OrderService.TotalNonNegative | YapPerce_IAE-main/services/order-service/graphql/resolvers.js:259-262 | with non-negative prices and quantities the total is non-negative |
| OrderService.StockUpdateCases | YapPerce_IAE-main/services/order-service/graphql/resolvers.js:85-109 | fails exactly for a missing product ('Product not found') or a stock below the quantity ('Insufficient stock'); otherwise only that product's stock drops by the quantity and stays non-negative |
| OrderService.UpdateProductStock | YapPerce_IAE-main/services/order-service/graphql/resolvers.js:68-116 | a refused update writes nothing and answers the reason; otherwise exactly the new stock is written and the answer is true |
| OrderService.RunStockStops | YapPerce_IAE-main/services/order-service/graphql/resolvers.js:273-281 | once an item's stock update has failed, later items change nothing |
| OrderService.RunStockNonNegative | YapPerce_IAE-main/services/order-service/graphql/resolvers.js:273-281 | stock that starts non-negative stays non-negative, over the same products |
| OrderService.EarlierStockStays | YapPerce_IAE-main/services/order-service/graphql/resolvers.js:273-294 | when the second item names a missing product, the first item's stock stays reduced while the order fails |
| OrderService.ItemsTableRows | YapPerce_IAE-main/services/order-service/graphql/resolvers.js:273-277 | one item row per input item with its product, quantity and price under fresh keys; earlier rows stay |
| OrderService.CreateOrder | YapPerce_IAE-main/services/order-service/graphql/resolvers.js:253-298 | on success one order 'Dipesan' with the computed total and exactly its item rows; on a stock failure the order and item rows roll back, the stock written for earlier items stays, the counter stays advanced, and the error is 'Error creating order: ' and the reason |
| OrderService.UpdateOrderStatus | YapPerce_IAE-main/services/order-service/graphql/resolvers.js:300-320 | sets the given status on a known order and returns it; an unknown id changes nothing and fails with 'Order not found' |
| OrderService.OrderStatusFor | YapPerce_IAE-main/services/order-service/graphql/resolvers.js:330-333 | the order status is 'Selesai' exactly for 'Delivered' or 'Selesai', otherwise 'Dalam Pengiriman' |
| OrderService.WithShipmentStatus | YapPerce_IAE-main/services/order-service/graphql/resolvers.js:324-338 | records the shipment status with its mapped order status and changes no other column |
| OrderService.WithShipmentStatusIdempotent | YapPerce_IAE-main/services/order-service/graphql/resolvers.js:324-338 | recording the same shipment status twice equals recording it once |
| OrderService.UpdateShipmentStatus | YapPerce_IAE-main/services/order-service/graphql/resolvers.js:322-353 | a known order gets the shipment status and the mapped order status; an unknown id changes nothing and fails with 'Order not found' |
| OrderService.LatestTrackingStatus | YapPerce_IAE-main/services/order-service/graphql/resolvers.js:201-206 | none exactly for an empty list, otherwise the status of the LAST entry |
| OrderService.NewestTrackingStatus | YapPerce_IAE-main/services/order-service/graphql/resolvers.js:201-206 | the intended read: none exactly for an empty list, otherwise the status of the FIRST entry |
| OrderService.ShipmentStatusOf | YapPerce_IAE-main/services/order-service/graphql/resolvers.js:425-448 | without a shipment id or a truthy latest status it answers the stored value and writes nothing; otherwise it answers the latest status and writes it back, with the mapped order status, only when it differs |
| OrderService.WeightAppend | YapPerce_IAE-main/services/order-service/graphql/resolvers.js:151 | the weight of two item lists is the sum of their weights |
| OrderService.WeightPermutation | YapPerce_IAE-main/services/order-service/graphql/resolvers.js:151 | the weight does not depend on the order of the items |
| OrderService.WeightNonNegative | YapPerce_IAE-main/services/order-service/graphql/resolvers.js:151 | non-negative quantities weigh non-negatively |
| OrderService.DestinationCases | YapPerce_IAE-main/services/order-service/graphql/resolvers.js:154-159 | the destination is the user's address unless it is missing, '-' or blank, then '-'; it is never blank |
| OrderService.RequestShape | YapPerce_IAE-main/services/order-service/graphql/resolvers.js:146-171 | the request fails exactly when the user is unknown ('User not found for shipment'); otherwise it names the order's user, the warehouse, 'Marketplace Order', 'Processing' and the items' weight, or 1 when that is 0 |
| OrderService.FailureMessageNeverEmpty | YapPerce_IAE-main/services/order-service/graphql/resolvers.js:174-176 | a refused shipment always fails with a non-empty reason: the message ShipXpress gave, or 'Failed to create shipment' |
| OrderService.ItemsOfOrder | YapPerce_IAE-main/services/order-service/graphql/resolvers.js:370-375 | returns each item row of the order exactly once and nothing else |
| OrderService.DistinctMultiset | YapPerce_IAE-main/services/order-service/graphql/resolvers.js:370-375 | rows with distinct ids occur once each in the multiset |
| OrderService.OrderRowsWeight | YapPerce_IAE-main/services/order-service/graphql/resolvers.js:370-375 | whatever order the item rows come back in, the shipment weighs the same |
| OrderService.Dispatched | YapPerce_IAE-main/services/order-service/graphql/resolvers.js:381-386 | the dispatched order is 'Dalam Pengiriman' with the returned status or 'Processing', and a shipment id exactly when a truthy one came back; the other columns stay |
| OrderService.SendOrderToShipXpress | YapPerce_IAE-main/services/order-service/graphql/resolvers.js:355-390 | an unknown order, an unknown user and a refused shipment fail under 'Error sending order to ShipXpress: ' and write nothing; otherwise exactly one request goes out, the order is dispatched and the answer is whether a shipment id came back |
| OrderWebhook.HandleShipmentStatus | YapPerce_IAE-main/services/order-service/index.js:16-45 | an incomplete body answers 400 and a failing query 500, both writing nothing; otherwise the one UPDATE runs and the answer is success |
| OrderWebhook.AppliedEffect | YapPerce_IAE-main/services/order-service/index.js:27-36 | the named order gets the reported shipment status and id and the mapped order status, no other order or column changes, and an unknown id changes nothing |
| OrderWebhook.AppliedToNamedOrder | YapPerce_IAE-main/services/order-service/index.js:33-36 | the order named by the decimal text of its id is exactly the one updated |
| OrderWebhook.AppliedIdempotent | YapPerce_IAE-main/services/order-service/index.js:33-36 | delivering the same payload twice equals delivering it once |
| OrderWebhook.LaterPayloadWins | YapPerce_IAE-main/services/order-service/index.js:33-36 | of two payloads for the same order, the later one's values stand |
| OrderWebhook.DifferentOrdersCommute | YapPerce_IAE-main/services/order-service/index.js:33-36 | payloads for different orders commute |
| UserService.UserDb.constructor | YapPerce_IAE-main/services/user-service/graphql/resolvers.js:87-92 | the users table starts empty with its counter at 1 |
| UserService.UserDb.InsertUser | YapPerce_IAE-main/services/user-service/graphql/resolvers.js:87-92 | the user row takes the free counter value (`insertId`) and the counter advances |
| UserService.OrNullStored | YapPerce_IAE-main/services/user-service/graphql/resolvers.js:89 | a stored phone or address is never the empty string, a non-empty one is stored as given, and normalising again changes nothing |
| UserService.RegisterUser | YapPerce_IAE-main/services/user-service/graphql/resolvers.js:71-116 | a registered email fails with 'Registration error: Email already registered' and writes nothing; otherwise one user with the hash, and phone and address stored or NULL, returned without the password |
| UserService.Login | YapPerce_IAE-main/services/user-service/graphql/resolvers.js:33-67 | an unknown email and a wrong password both give 'Login error: Invalid email or password'; a success returns, without the password, a user with that email whose password matches; when the email is known and every user holding it matches the password, login succeeds |
| UserService.CollectMembers | YapPerce_IAE-main/services/user-service/graphql/resolvers.js:134-154 | the collected assignments are exactly the candidates of the listed columns |
| UserService.CollectOrdered | YapPerce_IAE-main/services/user-service/graphql/resolvers.js:134-154 | the collected assignments follow the column order |
| UserService.AssignmentsRules | YapPerce_IAE-main/services/user-service/graphql/resolvers.js:134-154 | one assignment per qualifying column, in the order name, email, phone, address, password |
| UserService.AssignmentsEmpty | YapPerce_IAE-main/services/user-service/graphql/resolvers.js:134-158 | nothing is assigned exactly when name, email and password are falsy and phone and address are not given |
| UserService.EmptyValuesDiffer | YapPerce_IAE-main/services/user-service/graphql/resolvers.js:134-149 | an empty name is ignored while an empty phone is set to '' and a null address to NULL |
| UserService.SetList | YapPerce_IAE-main/services/user-service/graphql/resolvers.js:135-153 | one 'column = ?' per assignment, in order |
| UserService.ParamsOf | YapPerce_IAE-main/services/user-service/graphql/resolvers.js:136-153 | one bound value per assignment, in order |
| UserService.ValueForCollect | YapPerce_IAE-main/services/user-service/graphql/resolvers.js:134-154 | the value assigned to a column is its candidate when the column is listed, else none |
| UserService.AssignedEffect | YapPerce_IAE-main/services/user-service/graphql/resolvers.js:134-165 | name and email change only when truthy, phone and address whenever given (NULL when given as null), the password to the hash only when truthy; the id stays |
| UserService.AssignmentsUnfold | YapPerce_IAE-main/services/user-service/graphql/resolvers.js:134-154 | the assignments are the five columns' pieces in source order |
| UserService.UpdateUser | YapPerce_IAE-main/services/user-service/graphql/resolvers.js:118-177 | an unknown id fails with 'Update error: User not found' and an input with nothing to set with 'Update error: No fields to update', neither writing; otherwise one UPDATE with the assignments and the id bound last, and the updated profile returned |
| UserService.DeleteUser | YapPerce_IAE-main/services/user-service/graphql/resolvers.js:179-190 | true exactly when the id existed; the row is removed and no other |
| Choreography.Statuses | YapPerce_IAE-main/services/order-service/graphql/resolvers.js:188-201 | the statuses of the listed tracking rows, one per row, in list order |
| Choreography.LatestReadIsOldest | YapPerce_IAE-main/services/order-service/graphql/resolvers.js:201-206 | on the newest-first list the tracking service returns, the status the order service reads is that of the row with the OLDEST timestamp |
| Choreography.NewestStatusNotRead | YapPerce_IAE-main/services/order-service/graphql/resolvers.js:201-206 | a shipment tracked 'Processing' then 'Delivered' is read as 'Processing' |
| Choreography.NewestReadIsNewest | YapPerce_IAE-main/services/order-service/graphql/resolvers.js:201-206 | reading the first entry of the newest-first list gives the status of a row that no other row postdates |
| Choreography.NewestStatusRead | YapPerce_IAE-main/services/order-service/graphql/resolvers.js:201-206 | a shipment tracked 'Processing' then 'Delivered' is read as 'Delivered' by the corrected reader |
| Choreography.WebhookReachesOrder | TUGASBESAR_IAE_SHIPMEN_KELOMPOK2_SI4708-main/services/shipment-service/src/resolvers.ts:169-185 | the webhook ShipXpress sends for an order is complete and updates exactly that order's shipment status and id |
| PaymentService.PaymentDb.constructor | YapPerce_IAE-main/services/payment-service/graphql/resolvers.js:116-121 | the payments table starts empty with its auto-increment counter at 1 |
| PaymentService.PaymentDb.InsertPayment | YapPerce_IAE-main/services/payment-service/graphql/resolvers.js:116-121 | the payment is stored under the counter's value, which was free (`insertId`), and the counter advances |
| PaymentService.AmountMatchesWindow | YapPerce_IAE-main/services/payment-service/graphql/resolvers.js:111 | an amount passes exactly when it lies within 0.01 of the total on either side; the check is symmetric and the exact total passes |
| PaymentService.GateCases | YapPerce_IAE-main/services/payment-service/graphql/resolvers.js:105-113 | 'Order not found' exactly for a missing order, the mismatch message exactly for an amount outside the window, and no failure otherwise |
| PaymentService.TriggerResult | YapPerce_IAE-main/services/payment-service/graphql/resolvers.js:37-60 | the helper answers true exactly when the mutation answered true; errors and failures give false |
| PaymentService.CreatePayment | YapPerce_IAE-main/services/payment-service/graphql/resolvers.js:102-132 | a failed check gives its message under the prefix and writes nothing; otherwise exactly one payment 'Tertunda' with the given order and amount is stored and returned |
| PaymentService.ProcessPayment | YapPerce_IAE-main/services/payment-service/graphql/resolvers.js:161-195 | a failed check writes nothing and sends nothing; otherwise one payment 'Berhasil' is stored and returned and the order is sent to ShipXpress exactly once |
| PaymentService.UpdatePaymentStatus | YapPerce_IAE-main/services/payment-service/graphql/resolvers.js:134-159 | an unknown id fails with 'Payment not found' and nothing changes; otherwise only the status changes, and the order is sent exactly when the status is 'Berhasil' and the order id is truthy |
| ShipXpressMock.Restamped | YapPerce_IAE-main/services/shipxpress-mock/graphql/resolvers.js:123-125 | the record takes the new status and time and nothing else changes |
| ShipXpressMock.FilterByOrder | YapPerce_IAE-main/services/shipxpress-mock/graphql/resolvers.js:39-41 | the filter never lengthens the list |
| ShipXpressMock.FilterByOrderExact | YapPerce_IAE-main/services/shipxpress-mock/graphql/resolvers.js:39-41 | `shipmentsByOrder` keeps exactly the stored shipments of that order |
| ShipXpressMock.ValuesAt | YapPerce_IAE-main/services/shipxpress-mock/graphql/resolvers.js:35-37 | the values are listed in the order of their keys |
| ShipXpressMock.Registry.constructor | YapPerce_IAE-main/services/shipxpress-mock/graphql/resolvers.js:19 | the registry starts empty |
| ShipXpressMock.Registry.Shipment | YapPerce_IAE-main/services/shipxpress-mock/graphql/resolvers.js:27-33 | the stored shipment for a known id, and 'Shipment not found' exactly for an unknown one |
| ShipXpressMock.Registry.Shipments | YapPerce_IAE-main/services/shipxpress-mock/graphql/resolvers.js:35-37 | every stored shipment, once each, in insertion order |
| ShipXpressMock.Registry.CreateShipment | YapPerce_IAE-main/services/shipxpress-mock/graphql/resolvers.js:45-106 | one entry under the id with status 'Processing', the items and equal created and updated times; a new id is appended to the insertion order; the answer is success |
| ShipXpressMock.Registry.UpdateShipmentStatus | YapPerce_IAE-main/services/shipxpress-mock/graphql/resolvers.js:116-140 | an unknown id answers failure and changes nothing; a known one gets the new status and time, and a webhook with the stored order id |
| ShipXpressMock.Registry.RunStep | YapPerce_IAE-main/services/shipxpress-mock/graphql/resolvers.js:69-100 | a timer step overwrites a present shipment's status with its own and sends a webhook; an absent shipment is left alone |
| ShipXpressMock.CreateThenFind | YapPerce_IAE-main/services/shipxpress-mock/graphql/resolvers.js:27-66 | a created shipment is found by id with status 'Processing' and is listed under its order |
| CartStore.Without | YapPerce_IAE-main/frontend/store/cartStore.js:28-32 | the filtered list is no longer, holds no line of the product, and holds only lines of the old list |
| CartStore.AddExisting | YapPerce_IAE-main/frontend/store/cartStore.js:8-19 | adding a product already in the cart raises its line's quantity by one and changes no other line |
| CartStore.AddNew | YapPerce_IAE-main/frontend/store/cartStore.js:22-24 | adding a new product appends it with quantity 1 behind the earlier lines |
| CartStore.IncrementedCount | YapPerce_IAE-main/frontend/store/cartStore.js:14-18 | incrementing a product's lines adds their number to the item count and their prices to the total |
| CartStore.LinesDistinct | YapPerce_IAE-main/frontend/store/cartStore.js:8-10 | with one line per product, a product has one line exactly when `find` finds it |
| CartStore.AddItemTotals | YapPerce_IAE-main/frontend/store/cartStore.js:6-26 | `addItem` raises the item count by exactly one and the total by the product's price (the stored line's price when present) |
| CartStore.AddPreserves | YapPerce_IAE-main/frontend/store/cartStore.js:6-26 | `addItem` keeps one line per product with positive quantities |
| CartStore.WithoutKeepsOthers | YapPerce_IAE-main/frontend/store/cartStore.js:30 | removing a product keeps every line of other products |
| CartStore.WithoutTotals | YapPerce_IAE-main/frontend/store/cartStore.js:28-32 | removing a product takes exactly its quantity off the item count and its amount off the total |
| CartStore.WithoutAbsent | YapPerce_IAE-main/frontend/store/cartStore.js:30 | removing an absent product changes nothing |
| CartStore.WithoutIsSubsequence | YapPerce_IAE-main/frontend/store/cartStore.js:30 | the remaining lines keep their relative order |
| CartStore.WithoutPreserves | YapPerce_IAE-main/frontend/store/cartStore.js:28-32 | removing keeps one line per product with positive quantities |
| CartStore.SetQuantityEffect | YapPerce_IAE-main/frontend/store/cartStore.js:42-46 | setting a quantity changes only that product's line and keeps the length; an absent product changes nothing |
| CartStore.SetQuantityPreserves | YapPerce_IAE-main/frontend/store/cartStore.js:42-46 | a positive quantity keeps one line per product with positive quantities |
| CartStore.Cart.constructor | YapPerce_IAE-main/frontend/store/cartStore.js:4 | the cart starts empty |
| CartStore.Cart.AddItem | YapPerce_IAE-main/frontend/store/cartStore.js:6-26 | the items become the added list, and the item count grows by one |
| CartStore.Cart.RemoveItem | YapPerce_IAE-main/frontend/store/cartStore.js:28-32 | the items lose exactly the product's lines; an absent product leaves them unchanged |
| CartStore.Cart.UpdateQuantity | YapPerce_IAE-main/frontend/store/cartStore.js:34-47 | a quantity at or below zero removes the line as `removeItem` does; otherwise only that line's quantity is set |
| CartStore.Cart.ClearCart | YapPerce_IAE-main/frontend/store/cartStore.js:49-51 | the cart is empty, with count 0 and total 0 |
| Status.ResolveCanonicalStatusKeyAsWritten | YapPerce_IAE-main/frontend/lib/status.js:35-38 | the key as written is never undefined, and is an inherited prototype member exactly for a truthy status named like one |
| Status.PrototypeNameLeaks | YapPerce_IAE-main/frontend/lib/status.js:35-38 | the status "toString" resolves to an inherited member, not to a key |
| Status.ResolveCanonicalStatusKey | YapPerce_IAE-main/frontend/lib/status.js:35-38 | the corrected resolver always gives a canonical key, "unknown" exactly for a falsy or unmapped status, and the mapped key otherwise |
| Status.KeyAgreesOffPrototype | YapPerce_IAE-main/frontend/lib/status.js:35-38 | the corrected and the written resolver agree on every status not named like a prototype member |
| Status.ResolveCanonicalStatus | YapPerce_IAE-main/frontend/lib/status.js:29-33 | the badge is always one of the canonical badges |
| Status.BadgeMatchesKey | YapPerce_IAE-main/frontend/lib/status.js:29-38 | the badge is the one of the corrected key, and is "Status Unknown" exactly when that key is "unknown" |
| Status.OrderStatusesKnown | YapPerce_IAE-main/frontend/lib/status.js:14-16 | the order service's three statuses map to placed, out for delivery and delivered |
| Status.PaymentStatusesKnown | YapPerce_IAE-main/frontend/lib/status.js:23-24 | the payment service's two statuses map to payment pending and paid |
| Status.ShipXpressStatusesKnown | YapPerce_IAE-main/frontend/lib/status.js:17-22 | the shipment statuses map to preparing, in transit and delivered |
| Status.LookupCaseSensitive | YapPerce_IAE-main/frontend/lib/status.js:13-27 | the lookup is case-sensitive: "delivered" is unknown |
| Status.ResolveOrderStatus | YapPerce_IAE-main/frontend/lib/status.js:40-44 | no order is unknown; a truthy shipment status wins over the order's own status |

## Left out

- Network transport, the Apollo servers and the gateway are not modelled. Each call to a sibling service is a parameter that holds the answer the call produced. A failed request becomes `None` or an empty list, as the fetch helpers turn it into `null` or `[]`.
- `bcrypt.hash`, `bcrypt.compare`, `jwt.sign` and `encodeURIComponent` are parameters: the hash produced, a comparison function and an encoding function. No token is modelled.
- The clock is not modelled. `now`, `CURRENT_TIMESTAMP` and `new Date()` are integer parameters. Conversion of dates to ISO strings (`normalizeShipmentRow`'s date fields, `Order.order_date`) is not modelled, because it is formatting only.
- The stand-in's random or time-based ids are parameters. Its `setTimeout` progression is three explicit step methods (`ShipXpressMock.Registry.RunStep`). When the timers fire relative to other requests is not modelled.
- Concurrency is not modelled. This includes two requests racing on the read-then-write of product stock. Every contract is about one call in isolation.
- Money and weights are exact reals, not IEEE doubles. The 0.01 payment tolerance is therefore exact and has no rounding.
- `Text.ToLower` lower-cases ASCII letters only. JavaScript's `toLowerCase` also folds other scripts. The statuses compared are ASCII.
- GraphQL `ID` arguments are natural numbers in the ShipXpress model. Casting an arbitrary string id is not modelled. In the order webhook, `orderId` selects the row whose id has that canonical decimal text. MySQL's numeric coercion of other texts ("007", "7abc") is not modelled.
- Queries and field resolvers that only run one SELECT, or only return a `{ id }` stub, are not modelled as operations. Their row lookups and stubs are stated once, by `ShipXpressDb.RowAtInserted`, `ShipXpressDb.RowAtUpdated` and `ShipXpressDb.ReferenceResolves`. The list follows.
  - Shipment service: `shipments`, `shipment`, `shipmentsByCustomer`, `shipmentsByStatus`, `shipmentsByVehicle`, and `Shipment.__resolveReference`.
  - Tracking service: `trackingUpdates`, `trackingUpdate`, `trackingUpdatesByStatus`, `TrackingUpdate.__resolveReference`, and the `Shipment.trackingUpdates` field.
  - Driver service: `drivers`, `driversByVehicle` and `Driver.__resolveReference`.
  - Vehicle service: `vehicles` and `vehiclesByStatus`.
  - Auth service: `users`, `user`, `me` and `User.__resolveReference`.
  - Order service: `orders`, `order`, `ordersByUser`, and the `Order.user`, `Order.items` and `OrderItem.product` fields.
  - Payment service: `payments`, `payment`, `paymentsByOrder` and the `Payment.order` field.
  - User service: `users` and `user`.
- CustomerService.ListCustomers: the order of the list (`ORDER BY created_at DESC`) is not stated. The model lists every customer once, in an unspecified order. The same holds for the other `created_at` and `order_date` orderings. The one ordering anything depends on, the tracking list's `updated_at DESC, tracking_id DESC`, is modelled.
- The product service is a pass-through of its table. It appears only as the stock map that `OrderService.UpdateProductStock` reads and writes.
- The `order_date`, `payment_date`, `created_at` and `updated_at` columns of the YapPerce tables are not modelled. Nothing in the modelled logic reads them.
- UserService.UpdateUser: an UPDATE that sets an email another user already has would fail on the table's unique index. The model has no such index and lets the update through.
- UserService.Login and AuthService.Login: a lookup by email with no ORDER BY may return any matching row. The contract promises some matching user, not a particular one.
- UserService.RegisterUser and UserService.Login: MySQL's default collations compare `WHERE email = ?` without regard to letter case (and trailing spaces). The model compares emails exactly, so it does not capture that "A@x.com" is refused once "a@x.com" is registered, nor that it logs into that account. AuthService runs on Postgres, where `=` is exact.
- Display components, pages and client-side authentication storage are not modelled. They hold no decision logic beyond what `CartStore` and `Status` model.

## Findings

| source | as written | input that shows it | evidently intended | confidence | as-written member | corrected member |
|---|---|---|---|---|---|---|
| YapPerce_IAE-main/frontend/lib/status.js:35-38 | `BACKEND_STATUS_TO_CANONICAL[rawStatus] \|\| 'unknown'` indexes a plain object literal. A status named like an `Object.prototype` member therefore finds the inherited member instead of falling back to 'unknown'. | `resolveCanonicalStatusKey("toString")` returns the `toString` function, not a canonical key | every status missing from the table resolves to 'unknown' | not executed | Status.PrototypeNameLeaks | Status.ResolveCanonicalStatusKey |
| YapPerce_IAE-main/services/order-service/graphql/resolvers.js:201-206 | `fetchLatestTrackingStatus` returns `updates[updates.length - 1].status`. ShipXpress lists `trackingUpdatesByShipment` with `ORDER BY updated_at DESC, tracking_id DESC` (tracking-service resolvers.ts:15-21), so that entry is the oldest row. | a shipment tracked 'Processing' at time 10 and 'Delivered' at time 20 is read as 'Processing' | the newest status, the first entry of the list | not executed | Choreography.NewestStatusNotRead | OrderService.NewestTrackingStatus |

`OrderService.ShipmentStatusOf` keeps the as-written read, because it models the `Order.shipment_status` resolver as the code runs it. `Choreography.NewestReadIsNewest` proves the intended property for the corrected reader.
