# Evermos-Backend marketplace core, modelled in Dafny

This project models the core of the Evermos-Backend marketplace REST service and proves
properties of that model.

## What is modelled

- **Services over the database.** These are the user, shop, category, address, product
  and transaction services.
  - The database is a set of auto-increment tables (`Store`, `Schema`). Each table is a
    sequence of rows in ascending id order plus the next id.
  - The services are methods on a `Schema.Db` object whose one field holds all the tables.
  - A gorm transaction (`AddTrx`, `AddProduct`, `UpdateProduct`) works on a local copy of
    the tables. It commits with one assignment, so a rolled-back call changes nothing.
- **Order placement (`TrxService.AddTrx`).**
  - It checks that the address belongs to the caller.
  - It prices every item and adds up the total.
  - It writes the order header, then one product snapshot (`LogProduk`) and one
    `DetailTrx` per item.
  - It is proved against the specification function `TrxService.Placed`.
- **The read side of orders (`GetTrxByID`, `GetTrx`).**
  - Each detail row is rendered from its snapshot. A row whose snapshot is missing is
    skipped.
  - An order whose address is missing is dropped.
- **The request plumbing.**
  - listing metadata (`Common.GetMetaData`);
  - error classification and reporting (`ApiError`, `KnownErrors`, `Respond`);
  - the request context and its combining context (`Contexts`, `ReqContext`);
  - the Basic, JWT, rate-limit and recover middlewares (`Middleware`);
  - the request payload the logging middleware records (`RequestPayload`);
  - the logger's stack-frame filter (`TracedErrors`);
  - the level set-up (`LogLevel`);
  - the media-name helpers (`FileUtil`);
  - the product handler's form and query mapping (`ProductHandler`).
- **Parameters.**
  - The external side is a parameter: clocks, bcrypt, JWT signing and parsing, base64,
    SHA-256, the file system, JSON decoding and the limiter's decision.
  - So are MySQL's text-to-number comparison, `LIKE`, `CAST AS UNSIGNED` and `ORDER BY`
    (`Schema.Sql`, and an order function that only rearranges rows).
- **Go integer conversions.**
  - `uint(x)` is written out as `GoStrings.Wrap64`.
  - The listing offset `(page - 1) * limit` is an `int64` product, so it wraps
    (`GoStrings.WrapInt64`, `Constants.Offset`). The query builder writes an OFFSET only
    when it is positive (`Constants.Skipped`), so a wrapped negative offset lists the
    first rows again (`Common.WrappedOffsetRepeatsFirstPage`).
  - Unix seconds are `now / 1000000000` on the nanosecond clock reading `now`. Dafny's
    `/` rounds down for a positive divisor, which is what Go's `Unix()` does, so the two
    agree on every reading, negative ones included.

Where the design description and the code disagree, the model follows the code:

- **Foreign resources.** A foreign resource is not always answered "not found". In
  `DeleteProduct` a non-admin targeting another shop's product gets 403 "This product is
  not yours". In `GetAddressByID`, `DeleteAddress` and `UpdateAddress` a foreign address
  gets a 404 whose message differs from the one for a missing address.
- **Record not found.** It is not always turned into a 404.
  - `GetCategoryByID`, `UpdateCategory`, `AddAddress`, `UpdateProfile` and `GetProfile`
    pass it through `FromErr`, which makes it a 500 error with the text "record not
    found".
  - Every `AddTrx` failure, including "invalid address", is likewise a 500 error.
- **The admin flag.** The design says the token carries the user id and the admin flag.
  `Login` never sets `IsAdmin` in the claims it signs (`UserService.LoginClaims`).
- **The claims type.** The `JWTClaims` declaration in utils/constants/model.go has a UUID
  id and an e-mail. Every service uses an integer id, a phone number and an admin flag, so
  `Constants.Claims` is modelled the way the services use it.
- **Snapshots.** An order shows its products from the snapshots. The shop's name and photo,
  the category and the photo urls of a line are still read live.
  `TrxService.ViewsIgnoreProducts` proves only that the product table does not matter.

## Model

| member | source | states |
|---|---|---|
| TrxService.PriceItem | domains/trx/service.go:58-67 | a missing product fails with "ID product N not found: record not found"; a price Atoi refuses fails with "ID product price N not valid: …"; otherwise the line holds the product found by id, its parsed price and the quantity |
| TrxService.PriceSteps | domains/trx/service.go:57-68 | one pricing outcome per item, in item order |
| TrxService.PricedItems | domains/trx/service.go:57-68 | pricing succeeds iff every item can be priced, and then gives one line per item in order; otherwise it fails as the first unpriceable item does |
| TrxService.PriceItems | domains/trx/service.go:55-68 | the pricing loop yields exactly `Priced` (so it fails as the first unpriceable item does), and on success the running total is Σ price × quantity (`Total`) |
| TrxService.Header | domains/trx/service.go:70-79 | the header holds the caller id, the payment method, `uint(alamatKirim)`, the computed total, the invoice "INV-<unix seconds>" and the call's time |
| TrxService.Snapshot | domains/trx/service.go:93-104 | the snapshot copies the product's id, name, slug, both prices, description, shop and category |
| TrxService.Detail | domains/trx/service.go:110-118 | the detail row links the order and the snapshot, carries the snapshot's shop and the quantity, and its total is price × quantity |
| TrxService.Snapshots | domains/trx/service.go:85-104 | one snapshot per line, in line order |
| TrxService.Details | domains/trx/service.go:85-118 | line k gets a detail row pointing at snapshot id logStart + k |
| TrxService.WriteStep | domains/trx/service.go:106-121 | one more loop step inserts the line's snapshot under the next log id and its detail row pointing at that id |
| TrxService.WriteLines | domains/trx/service.go:85-123 | the second loop inserts exactly the snapshots and detail rows of the lines, in order, and touches no other table |
| TrxService.PlacedValid | domains/trx/service.go:81-123 | placing an order keeps every table's key invariant |
| TrxService.AddTrx | domains/trx/service.go:39-133 | a claims error is returned as is; an address not owned by the caller gives 500 "invalid address"; a pricing failure gives a 500 error with its text; every failure changes no table; success returns the new header and the tables become `Placed`; products never change |
| TrxService.ForeignAddressIsMissing | domains/trx/service.go:50-53 | an address that exists but belongs to someone else is not found by the ownership filter, so it is rejected exactly like a missing one |
| TrxService.NewDetailsTotal | domains/trx/service.go:110-118 | the detail rows an order adds carry line totals summing to Σ price × quantity |
| TrxService.PlacedOrder | domains/trx/service.go:81-123 | a placed order adds exactly one header row, exactly one snapshot and one detail row per item in item order, each linked to the new header and its own snapshot, and leaves users, shops, products, photos, categories and addresses unchanged |
| TrxService.PlacedTotal | domains/trx/service.go:67-118 | the detail rows of a placed order sum to its header total |
| TrxService.ShopResOf | domains/trx/service.go:177-211 | a line's shop has the snapshot's shop id; its name and photo come from the live shop, or are empty when the shop is gone |
| TrxService.CategoryResOf | domains/trx/service.go:180-201 | a line's category is the live category, or id 0 with no name when it is gone |
| TrxService.PhotoUrlsOf | domains/trx/service.go:183-189 | exactly the urls of the product's stored photos, in table order |
| TrxService.DetailRes | domains/trx/service.go:171-216 | a detail row is rendered iff its snapshot exists; name, slug, prices and description come from the snapshot, quantity and total from the detail row |
| TrxService.TrxResOf | domains/trx/service.go:156-232 | an order is rendered iff its address exists; the address fields are the live address's |
| TrxService.DetailsListed | domains/trx/service.go:162-217 | every listed line is `DetailRes` of one of the order's detail rows, there are never more lines than detail rows, and every detail row whose snapshot exists is listed |
| TrxService.DetailsAllListed | domains/trx/service.go:171-217 | when no snapshot is missing, each detail row gives exactly one line, in order |
| TrxService.DetailResponses | domains/trx/service.go:171-217 | the detail loop keeps the rendered rows whose snapshot exists, in order |
| TrxService.TrxView | domains/trx/service.go:143-160 | every failure is 404 "Failed, trx not found"; a success renders a stored order that matches the id and, for a non-admin, is the caller's; when no such order exists the call fails; the first such order in table order is rendered when its address exists, and otherwise the call fails |
| TrxService.GetTrxByID | domains/trx/service.go:135-235 | a claims error is returned as is; otherwise the answer is `TrxView` |
| TrxService.TrxPage | domains/trx/service.go:348-352 | the page and limit echo the filter |
| TrxService.GetTrx | domains/trx/service.go:237-353 | a claims error is returned as is; otherwise the answer is `TrxPage` |
| TrxService.TrxWindowVisible | domains/trx/service.go:248-264 | the window holds at most `limit` stored orders, and for a non-admin every one is the caller's |
| TrxService.TrxPageListed | domains/trx/service.go:268-346 | at most `limit` orders are listed; each renders a stored order visible to the caller whose address exists; every windowed order whose address exists is listed |
| TrxService.ViewsIgnoreProducts | domains/trx/service.go:171-217 | replacing the whole product table changes neither `GetTrxByID` nor `GetTrx` answers: orders show their snapshots |
| ProductService.Created | domains/product/service.go:128-131 | the create and update responses carry only the id and the name |
| ProductService.UploadStep | domains/product/service.go:91-118 | a directory failure or a `SaveMedia` failure fails the upload; otherwise it becomes a photo of the product with url "/uploads/products/<media name><ext>" |
| ProductService.UploadSteps | domains/product/service.go:91-119 | one upload outcome per file, with the clock reading taken for that file |
| ProductService.UploadedPhotos | domains/product/service.go:90-119 | the uploads succeed iff each one does, and then give one photo per file, in order, owned by the product and under "/uploads/products/"; otherwise they fail with the error of a failing upload |
| ProductService.UploadPhotos | domains/product/service.go:90-119 | the photo loop stops at the first failing upload and otherwise yields the photos of `Uploads` |
| ProductService.NewProduct | domains/product/service.go:67-83 | the new product is in the caller's shop, its slug defaults to "" and every other field is taken from the request |
| ProductService.AddProduct | domains/product/service.go:43-138 | a claims error is returned as is; a caller without a shop gets 404 "Failed, shop not found"; a failed upload gives its error; every failure changes no table; success inserts exactly the new product and one photo per upload |
| ProductService.PhotoUrls | domains/product/service.go:157-160 | the urls of the product's photos, in table order |
| ProductService.GetProductByID | domains/product/service.go:140-183 | a missing product, shop or category gives its own 404 message; otherwise the full product with its shop, category and photo urls |
| ProductService.DeleteProduct | domains/product/service.go:185-224 | a non-admin without a shop gets a 500 "record not found"; a missing product gives 404 "Product not found"; a non-admin targeting another shop's product gets 403 "This product is not yours"; in these cases nothing changes; otherwise the product row and, through the cascading foreign key of domains/product/model.go:17, its photo rows are removed (an admin may delete any product) |
| ProductService.MergedProduct | domains/product/service.go:256-277 | each given field replaces the stored one and every other field, including id and shop, is kept |
| ProductService.EmptyUpdateKeepsProduct | domains/product/service.go:256-277 | an update that gives no field changes only the update time |
| ProductService.FirstRemoveFailure | domains/product/service.go:291-297 | the first old-photo removal that failed with anything but "does not exist", if any |
| ProductService.FirstRemoveFailureFrom | domains/product/service.go:291-297 | skipping removals that did not fail does not change the first failure |
| ProductService.RemoveOldPhotos | domains/product/service.go:291-297 | the removal loop stops at the first real failure and ignores files already gone |
| ProductService.ReplacedPhoto | domains/product/service.go:299-335 | after replacing, a photo row is either a new upload of the product or an old photo of another product |
| ProductService.ReplacedKeepsOthers | domains/product/service.go:299 | replacing keeps every photo of another product |
| ProductService.ReplacedPhotosAreNew | domains/product/service.go:299-335 | after replacing, every photo of the product is a new upload |
| ProductService.ReplacedPhotosKeep | domains/product/service.go:299-335 | after replacing, every new upload is stored under the next ids of the photo table |
| ProductService.UpdateProduct | domains/product/service.go:226-346 | a claims error is returned as is; only a product of the caller's own shop is found (no admin bypass), otherwise 404; on success the product becomes `MergedProduct`; given photos replace the product's photos exactly, absent photos leave them alone; an old photo that cannot be removed gives "failed to delete old photo: …"; every failure changes no table |
| ProductService.ProductWindowMatches | domains/product/service.go:351-390 | every listed product is stored and satisfies every given filter (keyword, category, shop, price bounds, date bounds), and at most `limit` are listed |
| ProductService.ListedRes | domains/product/service.go:398-411 | a listed product carries every field but its shop, category and photos |
| ProductService.GetProducts | domains/product/service.go:348-415 | one `ListedRes` per product of the window, in order |
| ProductHandler.FirstValue | domains/product/handler.go:113-140 | the first form value under a key, present iff the key was sent with at least one value |
| ProductHandler.FilesOf | domains/product/handler.go:142 | the files under a key, none when it is absent |
| ProductHandler.IntValue | domains/product/handler.go:119-137 | the first value read by Atoi; a missing or non-integer value gives nothing |
| ProductHandler.UpdateProductInput | domains/product/handler.go:112-145 | each present key sets its field from its first value; non-integer `id_category` and `stok` are dropped; photos are set iff at least one file was sent |
| ProductHandler.QueryId | domains/product/handler.go:174-188 | a present integer id filter becomes Go's `uint` of it; otherwise there is no filter |
| ProductHandler.QueryInt | domains/product/handler.go:190-202 | a price filter is Atoi of the query value, none when it is missing or not an integer |
| ProductHandler.GetProductsReq | domains/product/handler.go:165-202 | a metadata error is returned as is; otherwise the filter is the metadata with the product columns allowed, "id" by default, and each id and price filter is mapped as above |
| ProductHandler.GetProductByID | domains/product/handler.go:65-79 | an empty id gives "id is required" before the service is called; any other id gets exactly the service's answer (`ProductService.LookedUp`): the product with its shop, category and photos, or the service's 404 |
| ProductHandler.DeleteProduct | domains/product/handler.go:81-96 | an empty id gives "id is required" and nothing changes; any other id performs exactly the service's deletion (`ProductService.Deleted`), and its error is what is reported |
| ProductHandler.UpdateProduct | domains/product/handler.go:98-160 | an empty id or an unreadable form is refused and nothing changes; otherwise the form is read as `UpdateProductInput` does (`ReadFrom`), the tables change exactly as the service's update says (`ProductService.Updated`), a success is returned as is and a failure reaches the client as the `FromErr` classification of the service's error |
| ProductHandler.GetProducts | domains/product/handler.go:162-213 | a metadata error is returned as is; otherwise one `ListedRes` per product of the service's window for the mapped query |
| AddressService.ResOf | domains/address/service.go:136-142 | the response copies the id, title, recipient, phone and detail of the stored row |
| AddressService.NewAddress | domains/address/service.go:51-64 | the new address belongs to `uint(caller id)`, its phone defaults to the user's phone, and its other fields come from the request |
| AddressService.AddAddress | domains/address/service.go:38-71 | a claims error is passed through `FromErr`; a missing user row is a 500 "record not found" and changes nothing; otherwise exactly the new address is inserted |
| AddressService.MyAddressWindowMatches | domains/address/service.go:82-95 | every listed address is stored and is the caller's, has a title like the keyword when one is given, and at most `limit` are listed |
| AddressService.MyAddressUnordered | domains/address/service.go:88-90 | without both OrderBy and SortOrder the order clause is never applied |
| AddressService.GetMyAddress | domains/address/service.go:73-111 | a claims error is passed through `FromErr`; otherwise one response per address of the window, in order |
| AddressService.OwnedAddress | domains/address/service.go:122-134 | a missing address gives 404 with the "not found" message; for a non-admin a foreign address gives 404 with the "not yours" message; an admin bypasses ownership |
| AddressService.GetAddressByID | domains/address/service.go:113-145 | a claims error is passed through `FromErr`; otherwise the ownership check of `OwnedAddress` with this operation's messages, then the address's response |
| AddressService.DeleteAddress | domains/address/service.go:147-181 | a claims error or a failed ownership check ("Address not found", "This address is not yours") changes nothing; otherwise exactly the rows with that id are removed |
| AddressService.MergedAddress | domains/address/service.go:205-221 | exactly the given phone, title, recipient and detail are replaced; the id, owner and creation time are kept |
| AddressService.UpdateAddress | domains/address/service.go:183-228 | a claims error or a failed ownership check (with this operation's "shop" messages) changes nothing; otherwise the address becomes `MergedAddress` |
| AddressService.EmptyUpdateKeepsFields | domains/address/service.go:205-221 | an update with nothing given changes only the update time |
| AddressService.MergeIdempotent | domains/address/service.go:205-221 | applying the same update twice equals applying it once |
| ShopService.PublicRes | domains/shop/service.go:68-72 | the public view carries id, name and photo url and no owner |
| ShopService.OwnerRes | domains/shop/service.go:50-56 | the owner's view also carries the owner id |
| ShopService.GetMyShop | domains/shop/service.go:38-59 | a claims error is passed through `FromErr`; the caller's shop with its owner, or 404 "Failed, you don't have a shop" |
| ShopService.GetShopByID | domains/shop/service.go:61-75 | the shop that matches the id, without its owner, or 404 "Failed, shop not found" |
| ShopService.ShopToUpdate | domains/shop/service.go:85-94 | a non-admin matches on id and owner together, so a missing shop and a foreign shop give the same 404; an admin matches on id alone |
| ShopService.UpdatedShop | domains/shop/service.go:96-119 | the name changes only when one is given; a given photo sets the url to "/uploads/shops/shop_<id>_<unix>_<owner>"; id, owner and creation time are kept |
| ShopService.PhotoStep | domains/shop/service.go:100-116 | the photo step succeeds iff removing the old file (a missing file is fine), finding the fiber context and saving the new one all succeed, and then yields the new url; it panics, with the type assertion's error, iff the removal passes and the request context holds no fiber context |
| ShopService.UpdateMyShop | domains/shop/service.go:77-126 | a claims error is passed through `FromErr`; a failed lookup or photo step changes nothing; a panic in the photo step is the call's outcome and changes nothing; otherwise the shop becomes `UpdatedShop` |
| ShopService.PhotoWithoutFiberCtxPanics | domains/shop/service.go:111 | with no fiber context in the request context, a photo update that gets past the removal panics with "interface conversion: interface {} is nil, not *fiber.Ctx" |
| ShopService.ShopWindowMatches | domains/shop/service.go:139-157 | every listed shop is stored, has a name like the keyword when one is given, and at most `limit` are listed |
| ShopService.ShopResponses | domains/shop/service.go:159-178 | one response per listed shop, in order; it names the owner iff the caller is admin |
| ShopService.GetAllShop | domains/shop/service.go:128-185 | a claims error is passed through `FromErr`; each shop of the window names its owner iff the caller is admin; page and limit echo the filter |
| CategoryService.ResOf | domains/category/service.go:60-63 | the response copies the id and the name |
| CategoryService.AddCategory | domains/category/service.go:35-48 | exactly one new category with the given name is inserted under the next id |
| CategoryService.GetAllCategory | domains/category/service.go:50-67 | one response per stored category, in table order |
| CategoryService.GetCategoryByID | domains/category/service.go:69-82 | the first category matching the id, or a 500 "record not found" |
| CategoryService.DeleteCategory | domains/category/service.go:84-98 | no matching row gives 404 "Category not found" and changes nothing; otherwise every row with that id is removed |
| CategoryService.UpdateCategory | domains/category/service.go:100-120 | a missing id gives a 500 "record not found" and changes nothing; otherwise only the name and update time of that row change |
| CategoryService.AddedCategoryIsFound | domains/category/service.go:35-48 | a category just added is found under its new id with the given name |
| CategoryService.UpdatedCategoryIsFound | domains/category/service.go:100-120 | after an update the category's id finds the new name |
| UserService.OrDefault | domains/user/service.go:122-126 | the given value, or the default when none is given |
| UserService.LoginClaims | domains/user/service.go:54-61 | the signed claims hold the user id, the phone the caller gave and the expiry in Unix seconds; the admin flag is never set |
| UserService.Login | domains/user/service.go:37-73 | an unknown phone and a wrong password give the same 401 invalid-credentials warning; a signing failure is a 500 error; success returns the signed token and now + ExpireIn |
| UserService.Logout | domains/user/service.go:75-88 | exactly one blocklist row (token, expiry) is added and `LoggedOut` is true |
| UserService.ValidateToken | domains/user/service.go:90-101 | the answer is nil whether or not the token is on the blocklist, since a found row and "record not found" both return nil |
| UserService.FindBlocklisted | domains/user/service.go:93 | the lookup finds a row iff the token is on the blocklist |
| UserService.LogoutThenValidate | domains/user/service.go:75-101 | as written, right after `Logout` the token is on the blocklist and `ValidateToken` still answers nil |
| UserService.ValidateTokenFixed | domains/user/service.go:90-101 | the corrected check refuses a token iff it is on the blocklist, with 401 "Unauthorized!" |
| UserService.LogoutThenValidateFixed | domains/user/service.go:75-101 | with the corrected check, a token is refused right after `Logout` |
| UserService.NewUser | domains/user/service.go:116-129 | the stored user has the hashed password; occupation, province and city default to ""; the admin flag defaults to false |
| UserService.InsertKeepsPhonesUnique | domains/user/sqlrow.go:20 | inserting a user whose phone is not taken keeps phone numbers unique |
| UserService.Register | domains/user/service.go:103-137 | a hashing or date failure is a 500 error; a phone already taken is refused by the unique index as a 500 error; every failure changes nothing; otherwise exactly `NewUser` is inserted |
| UserService.MergedProfile | domains/user/service.go:151-187 | exactly the given fields are replaced, a given password is re-hashed, a given birth date is parsed and a given admin flag is stored; a hashing or date failure is a 500 error |
| UserService.SaveKeepsPhonesUnique | domains/user/sqlrow.go:20 | saving a user under its own id keeps phones unique when no other user has its phone |
| UserService.UpdateProfile | domains/user/service.go:139-194 | a claims error is passed through `FromErr`; a missing user is a 500 "record not found"; a phone that another user already has is a 500 error from the unique index; every failure changes nothing; otherwise the user becomes `MergedProfile` |
| UserService.GetProfile | domains/user/service.go:196-212 | a claims error is passed through `FromErr`; the caller's user with the password blanked, or a 500 "record not found" |
| UserService.LoginFindsRegistered | domains/user/service.go:41 | with unique phones, `Login`'s lookup of a registered phone finds the user registered with it |
| Common.QueryOr | utils/common/common.go:18-33 | the query value when it is present and non-empty, else the default |
| Common.FirstNonEmpty | utils/common/common.go:34-46 | empty iff every listed parameter is empty; otherwise the value of the first non-empty one |
| Common.FirstNonEmptyCons | utils/common/common.go:34-46 | the first non-empty value of a list is the head's when non-empty, else that of the rest |
| Common.KeywordIsFirstNonEmpty | utils/common/common.go:34-46 | the keyword chain takes the first non-empty of keyword, nama, search, q, judul_alamat |
| Common.DateBound | utils/common/common.go:55-85 | an empty date parameter sets no bound; a parsable one sets the parsed time; an unparsable one is a 400 warning with the parse error's text |
| Common.FilterErrors | utils/common/common.go:99-102 | the validator reports no field error iff limit ≥ 1, page ≥ 1 and the sort order is asc or desc |
| Common.ValidateFilter | utils/common/common.go:99-102 | the validation error is absent iff the filter is valid, and is a raw validation error otherwise |
| Common.GetMetaData | utils/common/common.go:17-105 | a success iff limit and page are integers, the column is allowed, the four date bounds parse, limit ≥ 1, page ≥ 1 and the lower-cased sort order is asc or desc; non-numeric limit or page gives its 400 message; a column not allowed gives 400 "Order by column … is not allowed!"; the first date bound that does not parse gives `DateBound`'s own 400; a success has an allowed column, a lower-cased sort order, the fallback keyword, the parsed date bounds and passes validation; every failure is a validation error or a 400 |
| Common.EmptyQueryDefaults | utils/common/common.go:18-33 | an empty query gives 20 rows of page 1, ordered by the first allowed column ascending, with no keyword and no date bounds |
| Common.OutOfRangeIsValidationError | utils/common/common.go:99-102 | a limit or page below one fails validation, not parsing |
| Common.ConsecutivePagesTile | domains/trx/service.go:257-262 | while page × limit fits in `int64`, page p skips (p - 1) × limit rows, and pages p and p + 1 together list the window of 2 × limit rows starting there |
| Common.WrappedOffsetRepeatsFirstPage | domains/trx/service.go:257-262 | limit 2^62 on page 3 wraps the offset to -2^63, and that page lists the same rows as page 1 |
| GoStrings.WrapInt64 | domains/trx/service.go:257 | Go's `int64` arithmetic: the result is in the signed 64-bit range, congruent to the exact value modulo 2^64, and equal to it when it is in range |
| ApiError.ErrorString | utils/api-error/apiError.go:20-29 | the messages joined with " - " |
| ApiError.NewWarn | utils/api-error/apiError.go:35-37 | a WARN `ApiErrors` with the given code and messages |
| ApiError.NewError | utils/api-error/apiError.go:43-45 | an ERROR `ApiErrors` with the given code and messages |
| ApiError.Warn | utils/api-error/apiError.go:31-33 | a WARN with the error's text as the one message |
| ApiError.Error | utils/api-error/apiError.go:39-41 | an ERROR with the error's text as the one message |
| ApiError.MsgForTag | utils/api-error/apiError.go:68-83 | the text for required, number and gt (array or slice, or other kinds), and "Failed on <tag> tag" for any other tag |
| ApiError.FieldErrorTexts | utils/api-error/apiError.go:59-61 | one validator text per field error, in order |
| ApiError.FieldMessages | utils/api-error/apiError.go:58-62 | one "<field>: <message>" per field error, in order |
| ApiError.CollectFieldMessages | utils/api-error/apiError.go:58-62 | the loop builds exactly `FieldMessages` |
| ApiError.FromErr | utils/api-error/apiError.go:47-66 | nil stays nil and only nil; the result is always an `ApiErrors` (`ClassifiedAs`): an `ApiErrors` is kept; a validation failure becomes a 400 WARN with one message per field; any other error becomes a 500 ERROR with its text |
| ApiError.RBError | utils/api-error/apiError.go:85-95 | always a 500 ERROR whose last message is the rollback error's text, after the original messages |
| ApiError.GetApiErrors | utils/api-error/apiError.go:97-116 | nil is 500 "empty error"; an `ApiErrors` is itself; any other error is a 500 ERROR with its text |
| ApiError.GetApiErrorsCode | utils/api-error/apiError.go:97-116 | only an `ApiErrors` is reported with a status other than 500 |
| ApiError.ErrGroup.Append | utils/api-error/apiError.go:123-127 | one more message at the end |
| ApiError.ErrGroup.GetErr | utils/api-error/apiError.go:129-143 | nil iff nothing was appended; otherwise a 500 ERROR listing the messages |
| ApiError.ErrGroupCollects | utils/api-error/apiError.go:118-143 | a fresh group reports exactly the appended messages, in order, or nil when none |
| KnownErrors.Unauthorized | utils/api-error/error.go:7-9 | reported as 401 WARN "Unauthorized!" |
| KnownErrors.FailedToConvertUpdatedAt | utils/api-error/error.go:11-13 | reported as 500 ERROR "Failed convert updated at to time" |
| KnownErrors.FailedToConvertCreatedAt | utils/api-error/error.go:15-17 | reported as 500 ERROR "Failed convert created at to time" |
| KnownErrors.FileNotFound | utils/api-error/error.go:19-21 | reported as 404 WARN "File not found!" |
| KnownErrors.InvalidFileId | utils/api-error/error.go:23-25 | reported as 400 WARN "fileId must be UUID!" |
| KnownErrors.KnownErrorTexts | utils/api-error/error.go:7-25 | the error text of `Unauthorized`, `FileNotFound` and `InvalidFileId` is their one message |
| Respond.Error | utils/respond/respond.go:10-22 | the status and messages come from `GetApiErrors`, the "error" header is the error's text and the envelope reports failure |
| Respond.Success | utils/respond/respond.go:24-35 | the given status, an empty "error" header and a success envelope with the data and no errors |
| Respond.Data | utils/respond/respond.go:37-48 | nil data sends only the status; otherwise the bytes go out with the attachment name and the MIME type |
| Respond.ErrorReply | utils/respond/respond.go:10-22 | an `ApiErrors` is answered with its own code and messages; any other error with 500 and its text |
| Contexts.Value | utils/context/combiner.go:44-50 | a combined context answers the child's value when it has one, else the parent's |
| Contexts.DeadlineOf | utils/context/combiner.go:20-26 | a combined context uses the child's deadline unless it is zero |
| Contexts.Done | utils/context/combiner.go:28-34 | a combined context uses the child's channel unless it is nil |
| Contexts.ErrOf | utils/context/combiner.go:36-42 | a combined context uses the child's error unless it is nil |
| Contexts.AsFiberCtx | domains/shop/service.go:111 | the single-value assertion to `*fiber.Ctx` succeeds iff such a value is stored, and fails on nil with Go's runtime error text |
| Contexts.CombinedOverBackground | utils/context/combiner.go:20-50 | combining over the background context answers every query as the child does, except that a child without a deadline gives no deadline |
| Contexts.CombinedPrefersChild | utils/context/combiner.go:44-50 | the child's value wins whenever it has one; the parent is asked only otherwise |
| ReqContext.SetTokenClaims | utils/context/context.go:32-34 | the token is stored under the token key and nothing else changes |
| ReqContext.GetTokenClaims | utils/context/context.go:22-30 | succeeds iff a token is stored under the token key, and then returns it; otherwise 500 WARN "Can't get token claims" |
| ReqContext.SetRequestId | utils/context/context.go:45-47 | the id is stored under the request-id key and nothing else changes |
| ReqContext.GetRequestId | utils/context/context.go:36-43 | the stored id iff one of the right type is stored |
| ReqContext.FiberWithCtx | utils/context/context.go:13-20 | the local "ctx" becomes a context combining the background and the given one; other locals are kept |
| ReqContext.TokenRoundTrip | utils/context/context.go:22-47 | a stored token is read back unchanged, also after a request id is stored; a stored id is read back unchanged |
| ReqContext.FiberWithCtxValues | utils/context/context.go:13-20 | the stored context answers every key, and the token claims, as the given one does |
| ReqContext.RequestIdContextHasNoToken | utils/context/context.go:22-30 | a context holding only a request id yields no token claims |
| Middleware.BasicCredentials | middlewares/middlewares.go:90-111 | the pair exists iff the header starts with "Basic ", the rest decodes, and the decoded text contains ":"; the user part holds no ":" |
| Middleware.BasicAuth | middlewares/middlewares.go:89-128 | the request goes on iff the credentials exist and both digests equal the configured ones; any refusal is 401 "Unauthorized!" |
| Middleware.BasicAuthAcceptsExactly | middlewares/middlewares.go:114-122 | with a collision-free digest, exactly the configured user and password are admitted |
| Middleware.AuthHeader | middlewares/middlewares.go:131-134 | the Authorization header, or Auth when Authorization is empty |
| RequestChain.AfterRequestId | middlewares/middlewares.go:50-55 | `AddRequestId` leaves a request context in the local "ctx" |
| RequestChain.AfterJwt | middlewares/middlewares.go:159-164 | as written, `JWT` goes on iff it accepts the token, and then stores it in the local "token" only |
| RequestChain.AcceptedTokenNeverReachesServices | middlewares/middlewares.go:159-164 | as written, a service behind `AddRequestId` and `JWT` reading the claims from "ctx" always gets 500 "Can't get token claims" |
| RequestChain.AfterJwtFixed | utils/context/context.go:32-34 | the corrected `JWT` also stores the accepted token in the request context with `SetTokenClaims` |
| RequestChain.AcceptedTokenReachesServices | utils/context/context.go:21-34 | with the corrected `JWT`, the service reads exactly the accepted token, and the request id is kept |
| RequestChain.ShopPhotoUpdatePanics | domains/shop/service.go:111 | as written, even with claims delivered, the request context holds no fiber context, so a shop photo update that gets past the removal panics and `Recover` answers 500 "Panic : interface conversion: interface {} is nil, not *fiber.Ctx" |
| RequestChain.AfterRequestIdFixed | middlewares/middlewares.go:50-55 | the corrected `AddRequestId` also stores the fiber context in the request context |
| RequestChain.ShopPhotoUpdateSaves | domains/shop/service.go:111-116 | with both corrections, the service reads the token and the request id, and the photo step returns, succeeding iff the removal and the save do |
| Middleware.Jwt | middlewares/middlewares.go:130-165 | fewer than two space-separated words is refused; the request goes on iff the second word parses, is valid and passes `ValidateToken`, and then that token and its claims are stored; a refusal writes 401 and sends no extra status |
| Middleware.NoSpaceNoIndex | middlewares/middlewares.go:136 | a text with no space has no space index |
| Middleware.FirstSpace | middlewares/middlewares.go:136 | the first space of "<scheme> <token>" is right after the scheme |
| Middleware.SplitOneSpace | middlewares/middlewares.go:136 | "<scheme> <token>" splits into exactly the scheme and the token |
| Middleware.JwtTakesSecondWord | middlewares/middlewares.go:136-164 | a header "<scheme> <token>" hands the token to the checks whatever the scheme |
| Middleware.JwtNeedsTwoWords | middlewares/middlewares.go:136-140 | a header with no space is refused before any token check |
| Middleware.RateLimiter | middlewares/middlewares.go:176-182 | the request goes on iff the limiter allows it; otherwise 429 WARN "Too many request" |
| Middleware.Recover | middlewares/middlewares.go:167-174 | a reply is written iff the next handler panicked, and then it is 500 with "Panic : <value>" |
| RequestPayload.CollectHeaders | middlewares/utils.go:19-24 | a header name is a key iff it was visited, and its values are the visited ones in order |
| RequestPayload.Stars | middlewares/utils.go:30-32 | n copies of the mask text |
| RequestPayload.MaskValues | middlewares/utils.go:30-32 | every value is replaced by the mask text |
| RequestPayload.MaskMatching | middlewares/utils.go:28-34 | every header matching the name ignoring case has all its values masked; the others and the key set are unchanged |
| RequestPayload.IgnoredSnoc | middlewares/utils.go:27-29 | a name is ignored by one more entry iff it was ignored before or matches that entry |
| RequestPayload.MaskHeaders | middlewares/utils.go:26-35 | the masking loops give exactly `Masked` |
| RequestPayload.MaskingKeepsShape | middlewares/utils.go:26-35 | masking keeps every header and its number of values, masks every value of an ignored header and changes nothing else |
| RequestPayload.MaskingIdempotent | middlewares/utils.go:26-35 | masking twice equals masking once |
| RequestPayload.SetQueries | middlewares/utils.go:37-40 | one value per query key, the key set unchanged |
| RequestPayload.ToValidJson | middlewares/utils.go:49-56 | the decoded object when the body decodes, nil otherwise |
| RequestPayload.GetRequestPayload | middlewares/utils.go:12-47 | the body is `ToValidJson`, the headers are the collected ones masked, the queries one value per key |
| FileUtil.SaveMedia | utils/file/file.go:67-85 | succeeds iff opening, creating and copying all succeed; each failure is reported with its own prefix |
| FileUtil.Ext | utils/file/file.go:15 | the suffix from the last '.' of the last path element, or "" when it has none |
| FileUtil.ExtFrom | utils/file/file.go:15 | the backward scan for the extension gives a suffix that starts with '.' and holds no other '.' or '/' |
| FileUtil.GenerateMediaName | utils/file/file.go:62-65 | "<productId>_<nanoseconds>", never an error |
| FileUtil.MediaNameRoundTrip | utils/file/file.go:62-65 | the clock reading can be read back from the generated name |
| FileUtil.LowercaseFixed | utils/file/file.go:39-47 | lower-casing leaves an accepted extension unchanged |
| FileUtil.StrictImageImpliesImage | utils/file/file.go:14-47 | a name whose extension `IsValidImageExtension` accepts is also accepted by `IsValidImage` |
| FileUtil.VideoChecksAgree | utils/file/file.go:26-59 | `IsVideo` on a file's extension agrees with `IsValidVideo` on the file |
| FileUtil.ExtOfSuffix | utils/file/file.go:15 | a name ending in '.' plus a part with no '.' or '/' has exactly that ending as its extension |
| FileUtil.ExtAfterSlash | utils/file/file.go:15 | a name whose last path element has no '.' has no extension |
| FileUtil.UpperBmpDiffers | utils/file/file.go:14-47 | the two image checks disagree on ".BMP" |
| FileUtil.LowerBmpDiffers | utils/file/file.go:16-40 | the two image checks disagree on ".bmp", which only `IsValidImage` lists |
| FileUtil.JpgCaseDiffers | utils/file/file.go:14-47 | the two image checks disagree on ".JPG", while the strict check accepts ".jpg" |
| FileUtil.ExtOfDirectoryDot | utils/file/file.go:15 | the extension is taken from the last path element only ("a.png/photo" is no image) and only the last dot counts ("archive.tar.gif" is one) |
| TracedErrors.Caller | utils/logger/utils.go:39-49 | a frame outside this module is skipped and a frame in the api-error package is skipped; otherwise "<path>:<line>" |
| TracedErrors.GetTracerrCallers | utils/logger/utils.go:31-53 | an untraced error is returned with no callers; a traced one is unwrapped, with the callers of its kept frames in stack order |
| TracedErrors.CallersAppend | utils/logger/utils.go:37-50 | the callers of a two-part stack are those of each part, in order |
| TracedErrors.CallersBound | utils/logger/utils.go:37-50 | there are never more callers than frames, and each comes from a frame |
| TracedErrors.ForeignStackHasNoCallers | utils/logger/utils.go:39-42 | a stack with no frame of this module yields no callers |
| LogLevel.GetLevel | wire/init.go:12-30 | a known name gives its level; any other name panics with the invalid-level message |
| LogLevel.GetLevelOfName | wire/init.go:12-30 | every level is reached from its own name |
| LogLevel.AcceptedNamesAreConfigLevels | wire/init.go:12-30 | `getLevel` accepts exactly the level names the configuration validates |
| LogLevel.LowercaseNamesPanic | wire/init.go:12-30 | names are case-sensitive: "info" and "debug" panic |
| LogLevel.NameInjective | wire/init.go:12-30 | no two levels share a name |
| LogLevel.Setup | wire/init.go:36-38 | the set-up succeeds iff the level name is valid; output is discarded iff the environment is TEST |
| Store.First | domains/category/service.go:87 | none iff no row satisfies the condition; otherwise the first such row in key order |
| Store.Where | domains/trx/service.go:162-165 | only rows that satisfy the condition and every row that does, never more rows than the table has |
| Store.Insert | domains/category/service.go:43 | the row is appended under the next id and the counter moves on |
| Store.InsertAll | domains/product/service.go:121-126 | the old rows are kept and the values follow under consecutive new ids |
| Store.DeleteWhere | domains/category/service.go:93 | exactly the rows that satisfy the condition are removed; the counter is kept |
| Store.Save | domains/category/service.go:110 | only the row with the saved id takes the new value |
| Store.Window | domains/shop/service.go:149-155 | at most `limit` rows, skipping `offset` |
| Store.WindowsTile | domains/shop/service.go:149-155 | consecutive pages do not overlap and leave nothing out |
| Store.InsertThenFind | domains/category/service.go:43 | a row just created is found again by its id |
| Store.SaveThenFind | domains/category/service.go:110 | after a save the row's id finds the saved value |
| Store.DeleteThenFind | domains/category/service.go:93 | after a delete nothing matching the condition is found |
| GoStrings.TrimPrefix | middlewares/middlewares.go:97 | the rest after the prefix when present, else the text unchanged |
| GoStrings.SplitTwo | middlewares/middlewares.go:104 | one piece iff the separator is absent; otherwise the pieces around its first occurrence |
| GoStrings.Split | middlewares/middlewares.go:136 | always at least one piece; its pieces are pinned down by `SplitCount`, `JoinSplit` and `SplitMany` |
| GoStrings.SplitCount | middlewares/middlewares.go:136 | one more piece than occurrences |
| GoStrings.JoinSplit | middlewares/middlewares.go:136 | joining the pieces with the separator gives the text back |
| GoStrings.SplitMany | middlewares/middlewares.go:136-137 | at least two pieces iff the separator occurs, and then the first two are around its first occurrence |
| GoStrings.ToLower | utils/file/file.go:15 | the same length, each ASCII letter lower-cased |
| GoStrings.ToUpper | domains/product/service.go:386 | the same length, each ASCII letter upper-cased |
| GoStrings.ToLowerIdempotent | utils/common/common.go:33 | lower-casing twice equals lower-casing once |
| GoStrings.Atoi | domains/trx/service.go:63 | a value iff the text is an optional sign followed by at least one digit |
| GoStrings.AtoiOfIntToString | domains/trx/service.go:63 | Atoi reads back every integer's decimal text |
| GoStrings.Wrap64 | domains/trx/service.go:44 | Go's `uint` on 64 bits: below 2^64, congruent to the value modulo 2^64 (so a negative id wraps to 2^64 plus it), and the identity on values already in range |

## Left out

- Store errors other than "record not found": the connection, `Create`, `Save`, `Delete`, `Count` and `Find` failing are not modelled, so these error paths are missing: "failed to save transaction", "failed to insert product log", "failed to insert transaction details", "failed to get detail trx", the listing `FromErr` paths and the rollback and commit errors. The store is a value that cannot fail.
- TrxService.AddTrx: the second loop's repeated product lookup ("not found during insert log") and price parse reuse the lines of the first loop. Inside the transaction no product changes between the two loops, so that lookup cannot fail.
- TrxService.PriceItems: Go's `int` overflow of the total and of price × quantity is not modelled; integers are unbounded.
- GoStrings.Atoi: the 64-bit range check of `strconv.Atoi` is not modelled; every digit string is accepted.
- GoStrings.AtoiErrorText: the argument is pasted into the message as it is; `strconv.Quote`'s escaping of `"`, `\` and non-printable characters is not modelled, so TrxService's price messages ("ID product price … not valid: …") differ for such text.
- SQL itself is kept abstract, because its semantics are not in the code: `ORDER BY` is an order function that only rearranges rows, and `LIKE`, `CAST AS UNSIGNED` and MySQL's comparison of a text id with a number are parameters of `Schema.Sql`.
- File-system effects are answers of `FileUtil.FileSystem`, not modelled files. This covers `os.Remove`, `os.MkdirAll`, `SaveFile` and `SaveMedia`'s open, create and copy. `filepath.Join` and `filepath.Clean` are written as plain concatenation.
- `DeleteProduct` ignores `os.Remove` errors, so the removal of its photo files is not represented at all; the photo rows go with the product through the cascading foreign key.
- Crypto and JWT are parameters: bcrypt hashing and comparison, JWT signing and parsing, base64 decoding, SHA-256 and the constant-time comparison.
- The clock is a parameter. Every `time.Now()` within one call is the same reading `now`, except the per-upload readings of `GenerateMediaName`.
- Nil and empty slices are not distinguished: photo urls, detail lists, order lists and listing results are sequences.
- The stopper context's goroutine guard (utils/context/stopper.go) is not modelled: a stopper context answers as the context it wraps. The value context of utils/context/getValue.go is not part of this model.
- Concurrency is not modelled: the `ErrGroup` mutex, the token bucket inside the rate limiter (only its decision is a parameter), and the middleware chaining done by fiber.
- The `Logging` middleware is not modelled, nor the logger sink (utils/logger/logger.go). Only the payload it records and `getTracerrCallers` are modelled. `AddRequestId` is modelled only as the context it stores (`RequestChain.AfterRequestId`); the fresh uuid is a parameter and the "Request-Id" response header is not modelled.
- GoStrings.ToLower: folds ASCII letters only, as do `GoStrings.ToUpper` and the `EqualFold` of `RequestPayload.MaskHeaders`. Go's `strings` functions also fold non-ASCII letters (under `EqualFold` the Kelvin sign U+212A matches "k" and "ſ" matches "s"), so the header masking (middlewares/utils.go:29), the extension checks (utils/file/file.go:15-54) and the sort-order lower-casing (utils/common/common.go:33) treat such input differently in the model.
- Constants.Skipped: the rule that a non-positive offset writes no OFFSET clause is that of gorm's `Offset`, which is not part of this model.
- `IGNORED_HEADERS` is defined outside the files shown, so the masked header names are a parameter of `RequestPayload.MaskHeaders`.
- The `validate.Struct` run on `UpdateProductReq` (domains/product/handler.go:147-150) is not modelled, because the request carries no validation tags in the files shown. The `AddProduct` handler's body parsing is not modelled either.
- The province and city proxy (domains/provcity), the other handlers, the routes, main.go and the wire dependency graph are not modelled; only `getLevel` and the TEST output rule are taken from wire/init.go.
- Register takes `isAdmin` from the request as the code does. Login never puts the admin flag into its claims. Both are modelled as written, and the admin flag is stated in `UserService.LoginClaims`.

## Findings

| source | as written | input that shows it | evidently intended | confidence | as-written member | corrected member |
|---|---|---|---|---|---|---|
| middlewares/middlewares.go:159-164 | `JWT` stores the accepted token only in the fiber local "token"; the context in "ctx" that handlers pass to services keeps no claims | any request with a valid, non-blocklisted bearer token to a route behind `JWT` whose service calls `GetTokenClaims` | store the claims in the request context with `SetTokenClaims` and put it back in "ctx" | medium (routes/routes.go calls `mw.JWT(false)`, a signature the file shown does not have); not executed | RequestChain.AcceptedTokenNeverReachesServices | RequestChain.AcceptedTokenReachesServices |
| domains/shop/service.go:111 | `UpdateMyShop` takes the fiber context from the request context with `ctx.Value(FiberCtxKey).(*fiber.Ctx)`, but no code stores a value under `FiberCtxKey` | any shop update with a photo, by the shop's owner, whose old photo is absent or removable | store the fiber context in the request context under `FiberCtxKey` in `AddRequestId` | high; not executed | RequestChain.ShopPhotoUpdatePanics | RequestChain.ShopPhotoUpdateSaves |
| domains/user/service.go:90-101 | `ValidateToken` returns nil both when the token is found on the blocklist and when it is not | `Logout` with a token, then any request with that token | refuse a token found on the blocklist | high; not executed | UserService.LogoutThenValidate | UserService.LogoutThenValidateFixed |
