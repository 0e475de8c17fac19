# products-api: a verified model of its own logic

products-api is a Django REST service for a product catalogue: brands, products, prices, sales
channels, and admin users who sign in with email and password. Most endpoints are declarative
create/read/update/delete. This project models the parts with logic of their own, and proves
what they promise:

- **Visit metadata.** `ProductVisitMetadataBuilder` derives the client IP from the forwarded-for
  header or the remote address, classifies the device by a fixed precedence of the user-agent
  parser's flags, and builds the metadata dictionary.
- **Product-update notification.** `ProductEmailService` builds the subject and body. Its
  recipients are the active staff users other than the one who made the change, and it
  dispatches nothing when there are none.
- **Visit tracking.** The `track_product_retrieve` task ignores a missing product. Otherwise it
  opens a geo reader, makes one city lookup, enriches the metadata in place (with defaults when a
  name is missing or the lookup fails), closes the reader, and records one visit.
- **User manager.** `create_user` and `create_superuser` refuse a missing email, use the
  normalised email as the username and set the password.
- **Admin user serializers and viewset.** The endpoints are staff-only. An admin cannot delete
  themselves. Created admins are always staff and active. A password reset checks the
  requester's own current password first and ownership second. The update serializer cannot
  touch the email or the password.
- **Product and brand viewsets.** Only anonymous reads dispatch tracking. An update is
  validated, then saved, then announced. A brand that products still reference cannot be
  deleted, and the refusal lists those products.

The model is organised as follows:

- **The catalogue and the user table** are classes: `Catalog.Store` and `Accounts.UserStore`.
  Their fields are the tables, as sequences of rows in table order (the user table's ids
  increase along it). Their invariants are
  the schema's constraints:
  - unique SKUs, brand names and emails;
  - a product's brand exists (the foreign key is `PROTECT`);
  - a visit's product exists.
- **The task queue** is an outbox (`Tasks.Outbox`) that every `.delay(...)` appends to.
- **The metadata dictionary** is a `Json.Dict` object that the task updates in place.
- **The geo reader** is a class (`Tasks.GeoReader`). It records its lookups and how often it was
  closed.
- **Collaborators outside this code** are parameters: the user-agent parser, the geo database,
  `normalize_email` and the clock. The password hasher is abstracted as remembering which raw
  password was set.
- **Endpoints** are methods or functions that return a status code and a body.
- **Prices** are integers in cents.

Points where the code's behaviour is easy to misread:

- **An unreadable geo database.** In `apps/products/tasks.py:17` the reader is opened outside the
  `try` that supplies the geo defaults. So an unreadable database raises out of the task, and
  nothing is recorded. `Tasks.TrackProductRetrieve` returns `ReaderUnavailable` with nothing
  changed.
- **The email subject.** One test, `tests/products/test_services.py:93`, expects a mis-encoded
  subject prefix ("Cat√°logo"). The model uses the literal of `apps/products/services.py:103`.
- **An anonymous product update** reaches `send_email` with an anonymous user, whose missing
  `email` attribute raises. This happens after the product was saved.
  `ProductViews.Update` reports it as `RaisedAfterSave`. Whether anonymous requests reach
  `update` at all depends on settings that are not part of this model.

## Model

| member | source | states |
|---|---|---|
| `Text.BeforeFirstComma` | apps/products/services.py:57 | `split(",")[0]`: a prefix of the header with no comma, ending where the first comma stands |
| `Text.BeforeFirstCommaOf` | apps/products/services.py:57 | a comma-free text followed by nothing or by a comma-led rest yields exactly that text |
| `Text.Strip` | apps/products/services.py:57 | `strip()`: the result has no surrounding whitespace, is the input with whitespace removed only at both ends, and has only input characters |
| `Text.StripPadded` | apps/products/services.py:57 | stripping whitespace padding around a trimmed text gives back exactly that text |
| `Text.JoinContains` | apps/products/viewsets/brand.py:55 | every item of `", ".join(...)` occurs in the joined text |
| `Text.Decimal` | apps/products/services.py:113 | `str(n)`: non-empty decimal digits with no leading zero |
| `Text.DecimalRoundTrip` | apps/products/services.py:113 | reading `str(n)` back as digits gives `n` |
| `VisitMetadata.DeviceType.Name` | apps/products/services.py:68-76 | every device type name is one of mobile, tablet, pc, bot, unknown |
| `VisitMetadata.GetDeviceType` | apps/products/services.py:61-76 | the chosen type's flag is set (unless unknown) and no flag of a higher-precedence type is set: mobile over tablet over pc over bot over unknown |
| `VisitMetadata.GetIp` | apps/products/services.py:47-59 | absent or empty forwarded-for gives the remote address unchanged; otherwise a trimmed, comma-free address |
| `VisitMetadata.ForwardedForFirstHop` | apps/products/services.py:54-57 | for a header `p + a + q + rest` with whitespace `p`, `q` and a comma-led `rest`, the IP is exactly `a`, whatever the remote address |
| `VisitMetadata.ForwardedForExample` | tests/products/test_services.py:42-54 | the header "203.0.113.1, 70.41.3.18" resolves to "203.0.113.1" |
| `VisitMetadata.Build` | apps/products/services.py:23-45 | exactly the ten keys; `ip` is the resolved IP; `user_agent` defaults to "" and `referer` to null; `device`, `os`, `browser` and the three flags are what the parser reports for the header ("" when absent), and `device_type` is the name of the type chosen from those flags, so it agrees with `is_mobile`, `is_tablet`, `is_pc` |
| `Catalog.Label` | apps/products/models/product.py:12-22 | `str(product)` contains the product's name and SKU |
| `Catalog.ReferencingProducts` | apps/products/models/product.py:10 | exactly the products whose brand key is the given brand |
| `Catalog.Store.ProductById` | apps/products/tasks.py:16 | the stored product with that id, or none exactly when no product has it |
| `Catalog.Store.ProductBySku` | apps/products/viewsets/product.py:31-33 | the stored product with that SKU, or none exactly when no product has it |
| `Catalog.Store.BrandByName` | apps/products/viewsets/brand.py:30-32 | the stored brand with that name, or none exactly when no brand has it |
| `Catalog.Store.BrandOf` | apps/products/services.py:112 | a stored product's brand exists and is the one its key names |
| `Catalog.Store.AddVisit` | apps/products/tasks.py:32 | appends exactly one visit record and keeps the schema invariant |
| `Catalog.Store.SaveProduct` | apps/products/viewsets/product.py:79 | the row with the product's id becomes the product, every other row unchanged; the schema invariant is kept |
| `Catalog.Store.DeleteBrand` | apps/products/viewsets/brand.py:53 | removes the unreferenced brand and keeps the schema invariant |
| `Catalog.FilterKeepsUnique` | apps/products/models/brand.py:5 | deleting brands keeps brand names and ids unique |
| `Accounts.SetPassword` | apps/accounts/managers.py:46 | afterwards exactly the raw password set checks (none for an unusable password) and nothing else about the user changes |
| `Accounts.UserStore.FindStaff` | apps/accounts/viewsets/user.py:45 | only staff users are found; none exactly when no staff user has the id |
| `Accounts.UserStore.CreateUser` | apps/accounts/managers.py:16-48 | missing or empty email is refused with nothing stored; otherwise username is the normalised email, defaults are not staff and active, exactly the given password checks, one row appended |
| `Accounts.UserStore.CreateSuperuser` | apps/accounts/managers.py:50-64 | the created user is staff, superuser and active, with the normalised email and the given password |
| `Accounts.UserStore.Save` | apps/accounts/viewsets/user.py:124 | the row with the user's id becomes the user; ids increasing and emails unique are kept |
| `Accounts.UserStore.Delete` | apps/accounts/viewsets/user.py:100 | removes exactly the rows with that id; the table invariant is kept |
| `Accounts.SaveKeepsValid` | apps/accounts/models.py:24 | saving a row that keeps its id, email and username keeps emails unique and ids increasing |
| `Accounts.DeleteKeepsValid` | apps/accounts/models.py:24 | deleting rows keeps emails unique and ids increasing |
| `Json.Dict.Update` | apps/products/tasks.py:22-27 | `update`: the new keys are added or overwritten, every other entry stays; afterwards `get` of a key gives the new value for a key that was sent, otherwise what it gave before |
| `Tasks.Outbox.Delay` | apps/products/services.py:145 | one dispatch appends exactly one message |
| `Tasks.GeoReader.constructor` | apps/products/tasks.py:17 | a fresh reader is open, with no lookups and no closes |
| `Tasks.GeoReader.City` | apps/products/tasks.py:21 | records the lookup; a non-text address or a closed reader fails |
| `Tasks.GeoReader.Close` | apps/products/tasks.py:31 | the reader is closed and its close count goes up by one |
| `Tasks.GeoFields` | apps/products/tasks.py:21-29 | country and city are always non-empty text: the looked-up name, or "México" / "Ciudad de México" when it is missing or empty, and both defaults on a failed lookup |
| `Tasks.Enriched` | apps/products/tasks.py:22-29 | only `country` and `city` are added or overwritten; every other key keeps its value |
| `Tasks.TrackProductRetrieve` | apps/products/tasks.py:13-34 | missing product: nothing changes; unreadable database: raises with nothing changed; otherwise exactly one lookup with the old `ip`, the reader closed exactly once, metadata enriched, exactly one visit with the enriched metadata appended |
| `Tasks.TrackTwice` | apps/products/tasks.py:32 | the task is not idempotent: two runs add two visit records for the product |
| `ProductEmail.Subject` | apps/products/services.py:103 | the fixed prefix followed by `str(product)`, so it contains the name and the SKU |
| `ProductEmail.Amount` | apps/products/services.py:113 | a price magnitude renders as digits, a point and exactly two decimals |
| `ProductEmail.AmountValue` | apps/products/services.py:113 | the digits before and after the point read back as the whole units and the cents |
| `ProductEmail.AmountRoundTrip` | apps/products/services.py:113 | an unsigned amount rendered with two decimals reads back as the same number of cents |
| `ProductEmail.FormatPrice` | apps/products/services.py:113 | `{price:.2f}` ends in a point and two digits |
| `ProductEmail.FormatPriceRoundTrip` | apps/products/services.py:113 | reading the rendered price back (a leading minus negates; digits before the point are units, the two after it cents) gives the price |
| `ProductEmail.BodyParts` | apps/products/services.py:105-122 | thirteen pieces: the fixed template text (greeting, SKU, brand, price, modifier and time lines, closing) alternating with the fields in order: name, SKU, brand, price, modifier, time |
| `ProductEmail.BodyMentions` | apps/products/services.py:105-122 | the body contains the product name, SKU, brand name, price and time, and the modifier's email ("Desconocido" when there is no user) |
| `ProductEmail.Recipients` | apps/products/services.py:138-141 | an email is a recipient exactly when an active staff user other than the modifier has it; the modifier never receives it |
| `ProductEmail.CollectRecipients` | apps/products/services.py:138-141 | the filter-and-collect loop yields exactly the recipients |
| `ProductEmail.Dispatches` | apps/products/services.py:143-145 | no recipients: nothing; otherwise exactly one message carrying the subject, body and recipient list |
| `ProductEmail.SendEmail` | apps/products/services.py:126-145 | the outbox grows by exactly the dispatches for the recipients and nothing else |
| `ProductEmail.OneOtherAdmin` | tests/products/test_services.py:99-111 | with one other active admin, the recipient list is exactly that admin's email |
| `ProductEmail.NoOtherAdmin` | tests/products/test_services.py:113-116 | with no other active staff user, nobody is a recipient |
| `Fields.TextField` | apps/accounts/serializers/user.py:75-76 | accepted exactly when valid text was sent (stripped: non-blank unless allowed, within the maximum length, no null character) or nothing was sent to an optional field; the result is the stripped text sent; missing-required, null, non-text, blank, too-long and null-character input each get their own message |
| `Fields.BooleanField` | apps/accounts/serializers/user.py:54-56 | accepted exactly when nothing or a boolean was sent, and yields the sent boolean; null and text get their messages |
| `AccountSerializers.UpdateFieldsRestricted` | apps/accounts/serializers/user.py:54-56 | the update fields are a subset of the full fields and exclude email, password and id |
| `AccountSerializers.ParsePasswordReset` | apps/accounts/serializers/user.py:75-76 | accepted exactly when both passwords were sent as valid non-blank text, and then the validated data are the two stripped texts; a missing one is reported under its key |
| `AccountSerializers.ValidatePasswordReset` | apps/accounts/serializers/user.py:78-103 | accepted exactly when the requester's own password checks and the requester is the target; a wrong password is the `current_password` error, else a different target the ownership error; attributes returned unchanged |
| `AccountSerializers.CheckPasswordReset` | apps/accounts/serializers/user.py:75-103 | field validation then `validate`: field errors are returned as they are; data that pass the field checks are accepted, unchanged, exactly when the requester's own password checks and requester and target are the same user |
| `AccountSerializers.WrongPasswordReportedFirst` | apps/accounts/serializers/user.py:92-101 | a wrong current password on someone else's account reports the `current_password` error, not ownership |
| `AccountSerializers.ParseAdminUser` | apps/accounts/serializers/user.py:25-31 | accepted exactly when email and password are valid text (within 254 and 128 characters), the email is not already stored, and the optional flag and names are acceptable; the validated email, password, flag and names are the stripped values sent |
| `AccountSerializers.CreateAdminUser` | apps/accounts/serializers/user.py:33-43 | creation delegates to `create_user` with the save arguments overriding the data; the new user has exactly the given password |
| `AccountSerializers.ParseUserUpdate` | apps/accounts/serializers/user.py:54-56 | accepted exactly when the optional flag and names are acceptable; the validated update holds exactly the sent `is_active`, `first_name`, `last_name` (names stripped) |
| `AccountSerializers.UpdateIgnoresOtherKeys` | apps/accounts/serializers/user.py:54-56 | adding or removing any key outside the three update fields does not change the validated update |
| `AccountSerializers.ApplyUserUpdate` | apps/accounts/serializers/user.py:54-56 | id, email, username, password and staff flags are unchanged; only the sent fields change |
| `AdminUsers.GetSerializerClass` | apps/accounts/viewsets/user.py:49-61 | the chosen serializer lacks both the email and the password exactly for update and partial update; every other action's serializer carries both |
| `AdminUsers.CheckPermission` | apps/accounts/viewsets/user.py:47 | the request proceeds exactly when the requester is an authenticated staff user; anonymous gets 401, non-staff 403 |
| `AdminUsers.ListUsers` | apps/accounts/viewsets/user.py:45 | the listing holds exactly the staff users |
| `AdminUsers.RetrieveUser` | apps/accounts/viewsets/user.py:45 | a staff user with that id is returned with 200; when no staff user has it, 404 |
| `AdminUsers.CreateUser` | apps/accounts/viewsets/user.py:63-76 | a created user is always staff and active, whatever the input, and not a superuser; it carries the normalised email, the sent names (empty when absent) and exactly the sent password checks; invalid data gives 400 with nothing stored |
| `AdminUsers.UpdateUser` | apps/accounts/viewsets/user.py:59-60 | invalid data or a missing staff user changes nothing; otherwise the row becomes the restricted update of the user |
| `AdminUsers.DestroyUser` | apps/accounts/viewsets/user.py:93-100 | deleting oneself gives 400 "You can't delete yourself." with the table unchanged; another staff user is removed with 204; the requester's row always survives |
| `AdminUsers.SetTargetPassword` | apps/accounts/viewsets/user.py:123-124 | only the target's row changes, and exactly the new password checks for it afterwards |
| `AdminUsers.ResetUserPassword` | apps/accounts/viewsets/user.py:102-129 | a failed check gives 400 with the table unchanged; on success only the target's password changes, and exactly the new password checks for it |
| `ProductViews.Retrieve` | apps/products/viewsets/product.py:35-58 | missing SKU: 404 with nothing dispatched; found: 200 with the product, and exactly one tracking task (product id, built metadata) only for an anonymous requester |
| `ProductViews.PriceField` | apps/products/models/product.py:9 | accepted exactly when sent within the column's ten digits, or omitted from a partial update; an omitted required price gets the required message, an out-of-range one the digits message |
| `ProductViews.BrandField` | apps/products/models/product.py:10 | a stored brand's key is accepted as sent and an unknown key is refused with its message; an omitted key is required unless partial |
| `ProductViews.SkuField` | apps/products/models/product.py:7 | accepted exactly when valid SKU text (or none, for a partial update) was sent that no other product has; the result is the stripped SKU sent |
| `ProductViews.ValidateProduct` | apps/products/serializers/product.py:6-14 | accepted exactly when every field is acceptable (all four sent unless partial, SKU free, price within the column, brand stored); the changes are the stripped SKU and name and the price and brand key as sent |
| `ProductViews.SavedProduct` | apps/products/viewsets/product.py:77-79 | after validation the saved product keeps its id and takes each sent field (text stripped), keeping the stored value of a field a partial update left out; a full update replaces all four |
| `ProductViews.ValidatedUpdateSavable` | apps/products/viewsets/product.py:77-79 | a validated update keeps the product's brand stored and its SKU unique, so saving keeps the schema invariant |
| `ProductViews.PerformUpdate` | apps/products/viewsets/product.py:79 | the validated changes are written over the stored product, its row becomes the merged product, and the schema invariant is kept |
| `ProductViews.Announce` | apps/products/viewsets/product.py:80-82 | an authenticated requester gets 200 with the saved product after exactly the dispatches `send_email` makes; an anonymous one raises with nothing sent |
| `ProductViews.UpdateInstance` | apps/products/viewsets/product.py:76-82 | for a found product: invalid data gives 400 with nothing saved or sent; valid data saves the merged product, then dispatches the notification and answers 200 (anonymous: raises after saving, nothing sent) |
| `ProductViews.Update` | apps/products/viewsets/product.py:60-82 | invalid data: 400 with nothing saved or sent; valid: the product is saved, then the notification for the requester is dispatched and 200 returned (anonymous: raises after saving, nothing sent) |
| `BrandViews.Labels` | apps/products/viewsets/brand.py:55 | `str` of every product, in order |
| `BrandViews.ProtectedMessage` | apps/products/viewsets/brand.py:55-58 | the refusal starts with the fixed sentence; one referencing product gives that sentence followed by its `str` |
| `BrandViews.ProtectedMessageListsAll` | apps/products/viewsets/brand.py:55-58 | the refusal contains every referencing product as "name (sku)" |
| `BrandViews.Destroy` | apps/products/viewsets/brand.py:34-62 | missing brand: 404; referenced brand: 400 listing the products, brand kept; otherwise the brand is removed with 204; products and visits are never changed |

## Left out

- The user-agent parser (the `user_agents` library) is a function parameter. Its device, OS and
  browser families and its four flags are taken as given.
- The geo database format and the `geoip2` reader internals are out of scope. The database is a
  function from address text to optional country and city names, or a failure, plus whether the
  file can be opened.
- Password hashing is abstracted as a credential that remembers the raw password set.
  `check_password` holds exactly for that password.
- `normalize_email` is an opaque function fixed per user table.
- The email body's timestamp (`utcnow`) is a parameter `now`, already formatted.
- Task-queue delivery, serialisation of task arguments, retries and asynchrony are out of scope.
  A dispatch is an append to the outbox.
- The email transport (`apps/commons/services.py`) and the `send_product_update_email` task body
  are out of scope; the task is a message in the outbox.
- Token authentication (`apps/accounts/authentication.py`) is out of scope. A requester is either
  anonymous or a user of the table.
- The default permission classes from the base settings are not part of this model. The product
  and brand endpoints impose no permission of their own; their models take the requester as
  given.
- Bodies the framework generates for 404 responses and for unexpected exceptions are modelled as
  empty.
- `ProductRetrieve.visited_at` (an automatic timestamp) is not part of a visit record.
- Product, brand, price and channel endpoints other than product retrieve and update and brand
  destroy are declarative and not modelled. So are routing, configuration and the OpenAPI schema.
- `Fields.BooleanField` accepts only JSON booleans. The framework also accepts text forms such as
  "true" or "0", which the model refuses.
- `Fields.TextField` takes text fields as JSON strings only. The framework also accepts a JSON
  number for a text field and uses its decimal text; numbers coerced to text are not modelled.
- `Fields.TextField` reports one message per field. When stripped text is both too long and holds
  a null character, the framework reports both messages; the model reports only the length
  message. Lone surrogate characters, which the framework also refuses, cannot occur in a Dafny
  string.
- `BrandViews.Destroy` and `BrandViews.ProtectedMessage` list the referencing products in table
  order. The framework collects the protected objects in a set, so the program promises no
  order; the model fixes one.
- `ProductEmail.Recipients` and `AdminUsers.ListUsers` keep table order. The querysets have no
  `order_by` and the models no default ordering, so the database promises no order; the model
  fixes one.
- `AccountSerializers.ParseAdminUser` does not check the email's format (the email validator's
  pattern) and takes the request data already decoded to text, booleans and nulls.
- `ProductViews.PriceField` uses a single message for a price with too many digits. The
  framework picks between the whole-digit and total-digit messages by how many decimals were
  written. Decimal text parsing is left out; prices are whole cents.
- `ProductViews.ValidateProduct` takes the price and the brand key already read as numbers. The
  framework's messages for wrongly typed numbers are not modelled.
- `AdminUsers.CheckPermission` answers an anonymous request with 401. This follows from the
  token authentication scheme, which asks for credentials; a session-only scheme would answer
  403.
- `AdminUsers.CreateUser` answers 500 when the manager refuses a normalised email that is
  already stored. Field validation compares the email as sent, so that clash surfaces as the
  database's integrity error.
- `Tasks.TrackProductRetrieve` passes the metadata as a dictionary object, not as what the task
  queue deserialises. The geo reader it opens is returned as a ghost value so that the contract
  can speak about its lookups and its close.
