# Product administration system: a Dafny model

The system is a CRUD administration application for a product catalogue. It has five parts, and this model follows each one:

- **A Laravel domain layer.** A `Product` entity validates itself when it is constructed. Create, update and delete use cases act on a product repository.
- **A Deno/Oak REST API.** It has product, user and authentication controllers, a Bearer-token middleware, and a MySQL helper that builds its `UPDATE` statements clause by clause.
- **A Next.js back office.** It has dashboard widgets, create and edit forms, an authentication context, an error hook and a translation hook.
- **A plain JavaScript admin panel** (`public/app.js`).
- **Shared modules.** `Wrappers`, `Text`, `Js` and `Lists` give JavaScript's and PHP's semantics where they matter. Examples are `slice` with negative or NaN bounds, `Math.ceil` of a division by zero, `parseInt` giving NaN, PHP `empty("0")`, `trim`, and `split`.

## How the model is built

Each source file is modelled in the form its code takes:

- **Pure logic** is datatypes and functions. Examples are the entity's checks, the pagination arithmetic, the dashboard aggregates, the price buckets and `formatDate`.
- **Code that changes state** is classes and methods:
  - the repositories and the database tables;
  - Oak's request context;
  - the React components' state;
  - the admin panel's DOM rows and globals;
  - the auth context with its stored token.
- **Loops stay loops.** Examples are the DOM filters, `switchTab`, the in-place sort of the recent products, and the dotted-key walk of `t`.

**Abstracted.** The following are modelled as parameters or symbolic values:

- **Hashing.** bcrypt is a symbolic `Hash` constructor. `compare` holds exactly for a hash of the plain text.
- **JWT.** djwt `verify` is a function parameter. `create` is a symbolic token that carries its payload.
- **URL validation** is a predicate parameter.
- **Clocks** are integer parameters.
- **Server replies** are datatype parameters.
- **The `LIKE` search** is a parameter: the hits are given.
- **Parsing.** What `parseInt`/`parseFloat` return is a parameter. An integer, or NaN, is modelled as `JsInt`.

**Prices** are `real`s.

## Model

| member | source | states |
|---|---|---|
| ProductEntity.FirstViolation | app/Domain/Product/Entities/Product.php:20-38 | the checks run name, price, stock, image in that order: the error is exactly the first failing one, and none iff the entity invariant holds |
| ProductEntity.Construct | app/Domain/Product/Entities/Product.php:7-18 | construction succeeds iff the invariant holds and then keeps every field; otherwise it throws the first violation |
| ProductEntity.ConstructedIsValid | app/Domain/Product/Entities/Product.php:17-32 | every constructed product has a non-empty name, price > 0 and stock >= 0 |
| ProductEntity.ZeroNameRejected | app/Domain/Product/Entities/Product.php:22-24 | the name "0" is rejected as empty, as PHP `empty` treats it |
| ProductEntity.IsCheap | app/Domain/Product/Entities/Product.php:42-50 | cheap is exactly not expensive at the 1000 threshold |
| ProductEntity.IsExpensive | app/Domain/Product/Entities/Product.php:42-45 | a price above 1000; its complement is IsCheap |
| ProductEntity.IsOutOfStock | app/Domain/Product/Entities/Product.php:52-60 | out of stock excludes available, and for stock >= 0 exactly one of the two holds |
| ProductEntity.IsAvailable | app/Domain/Product/Entities/Product.php:52-55 | a stock above 0; it excludes IsOutOfStock and is implied by IsPopular |
| ProductEntity.IsPopular | app/Domain/Product/Entities/Product.php:72-75 | a popular product (stock > 200) is available |
| ProductEntity.IsNotPopular | app/Domain/Product/Entities/Product.php:77-80 | not popular is exactly the complement of popular at 200 |
| ProductEntity.IsNew | app/Domain/Product/Entities/Product.php:62-65 | new iff a creation date exists and lies less than 30 days before now |
| ProductEntity.IsOld | app/Domain/Product/Entities/Product.php:67-70 | old excludes new; exactly at the 30-day cutoff neither holds; otherwise one of them holds |
| ProductUseCases.ProductRepository.constructor | app/Infrastructure/Persistence/Eloquent/EloquentProductRepository.php:8-9 | an empty store whose ids start at 1 |
| ProductUseCases.ProductRepository.FindById | app/Infrastructure/Persistence/Eloquent/EloquentProductRepository.php:34-43 | a row is found iff the id is stored, and it carries that id and satisfies the entity invariant |
| ProductUseCases.ProductRepository.Create | app/Infrastructure/Persistence/Eloquent/EloquentProductRepository.php:10-32 | the product is stored under a fresh id with both timestamps set and nothing else changes |
| ProductUseCases.ProductRepository.Update | app/Infrastructure/Persistence/Eloquent/EloquentProductRepository.php:51-69 | an unknown id throws and changes nothing; otherwise only that row changes, to the saved row, which is also what is returned (the fresh row) |
| ProductUseCases.Saved | app/Infrastructure/Persistence/Eloquent/EloquentProductRepository.php:60-68 | the saved row holds the entity's six columns with the row's own id and creation date; updated_at moves to now only when some column changed, and an update with no change leaves the row exactly as it was |
| ProductUseCases.ProductRepository.Delete | app/Infrastructure/Persistence/Eloquent/EloquentProductRepository.php:71-74 | exactly that id is removed, and the result says whether it was there |
| ProductUseCases.NewEntityFields | app/Application/Product/UseCases/CreateProductUseCase.php:18-28 | the entity the use case builds has no id and both timestamps equal to now |
| ProductUseCases.CreateProduct | app/Application/Product/UseCases/CreateProductUseCase.php:16-32 | invalid data throws the first violation and leaves the store unchanged; valid data adds exactly one row and the returned entity has id null and the input's fields |
| ProductUseCases.Merge | app/Application/Product/UseCases/UpdateProductUseCase.php:23-33 | the merged product keeps the requested id and the existing creation date and is stamped now |
| ProductUseCases.MergeFieldwise | app/Application/Product/UseCases/UpdateProductUseCase.php:25-30 | each field takes the supplied non-null value, and otherwise keeps the existing one |
| ProductUseCases.EmptyPatchKeepsProduct | app/Application/Product/UseCases/UpdateProductUseCase.php:23-33 | an empty data array changes nothing but updated_at |
| ProductUseCases.MergeIdempotent | app/Application/Product/UseCases/UpdateProductUseCase.php:23-33 | merging the same data twice is merging it once |
| ProductUseCases.UpdateProduct | app/Application/Product/UseCases/UpdateProductUseCase.php:14-47 | unknown id: not found and store unchanged; an invalid merge throws before the store is touched; otherwise only that row is saved from the merge and the saved row is returned; an empty data array leaves the store as it was and returns the existing row; the expensive and out-of-stock branches only log |
| ProductUseCases.DeleteGuard | app/Application/Product/UseCases/DeleteProductUseCase.php:16-28 | guards run existence, stock, age; each error is reported exactly when it is the first failing guard |
| ProductUseCases.DeleteProduct | app/Application/Product/UseCases/DeleteProductUseCase.php:14-36 | with `hasStock` read as stock > 0: deletes exactly when the guards pass, removing only that id; a failure leaves the store unchanged |
| ProductUseCases.DeleteProductAsWritten | app/Application/Product/UseCases/DeleteProductUseCase.php:22-24 | as written, every delete fails: not found for a missing id, an error from the undefined `hasStock` otherwise; the store never changes |
| ProductUseCases.DeleteOutcomeAsWritten | app/Application/Product/UseCases/DeleteProductUseCase.php:16-24 | the as-written outcome is always an error, and it is "not found" exactly for a missing id |
| ProductUseCases.AsWrittenDeleteRefusesDeletable | app/Application/Product/UseCases/DeleteProductUseCase.php:22-35 | a product with no stock, created long ago, passes every intended guard yet the as-written use case refuses it |
| Database.RoleOrDefault | src/utils/database.ts:50 | a truthy role is kept, otherwise the role is 'user' |
| Database.Collect | src/utils/database.ts:252-271 | walking the columns yields at most one assignment per column |
| Database.CollectValues | src/utils/database.ts:252-271 | every pushed value is the one its column's test produced |
| Database.CollectColumns | src/utils/database.ts:252-271 | a column is set iff it is walked and its value passes the test |
| Database.CollectAscending | src/utils/database.ts:252-273 | clauses come in the fixed column order, with no column twice |
| Database.ProductAssignmentsRules | src/utils/database.ts:252-271 | name, description and category are set only when truthy, while price and stock are set whenever defined (0 included) |
| Database.UserAssignmentsRules | src/utils/database.ts:134-150 | name, email, password and role are set only when truthy, and the password is pushed hashed |
| Database.SetListEndsWithTouch | src/utils/database.ts:273 | the SET list is never empty and ends with `updated_at = NOW()` |
| Database.StatementPlaceholders | src/utils/database.ts:273-278 | the statement has exactly as many `?` as there are bound values, the WHERE id included |
| Database.BuiltStatementsBalanced | src/utils/database.ts:134-158 | both builders' statements carry one value per placeholder |
| Database.PushProductUpdates | src/utils/database.ts:249-271 | the `if`/`push` sequence produces exactly the clauses and values of the product assignments |
| Database.BuildProductUpdate | src/utils/database.ts:247-286 | the SQL text and values array are the statement and values of the assignments plus the id |
| Database.PushUserUpdates | src/utils/database.ts:134-151 | the `if`/`push` sequence produces exactly the clauses and values of the user assignments |
| Database.BuildUserUpdate | src/utils/database.ts:132-167 | the SQL text and values array are the statement and values of the assignments plus the id |
| Database.UserStatementEffect | src/utils/database.ts:134-158 | running the built UPDATE on a user row performs exactly the field-wise merge |
| Database.ProductStatementEffect | src/utils/database.ts:252-278 | running the built UPDATE on a product row performs exactly the field-wise merge |
| Database.MergeUser | src/utils/database.ts:134-158 | name, email and role change iff the patch value is truthy; a truthy password is stored as its hash; id and timestamps are kept |
| Database.MergeProduct | src/utils/database.ts:249-278 | name, description and category change iff truthy; price and stock whenever defined, 0 included; id, user and timestamps are kept |
| Database.ApiRows | src/utils/database.ts:225-245 | one API product per row, in order, without user_id |
| Database.UserWithEmail | src/utils/database.ts:86-109 | a found user is in the table with that email; none is found iff no user has it |
| Database.UserWithEmailAppend | src/utils/database.ts:86-109 | after appending a user whose email was free, the lookup finds that user |
| Database.Db.constructor | src/utils/database.ts:16-17 | two empty tables with ids starting at 1 |
| Database.Db.FindUserById | src/utils/database.ts:61-84 | the row with that id, or null exactly when no row has it |
| Database.Db.FindUserByEmail | src/utils/database.ts:86-109 | the row with that email, or null exactly when no row has it |
| Database.Db.FindProductById | src/utils/database.ts:199-223 | the row with that id without user_id, or null exactly when no row has it |
| Database.Db.AllUsers | src/utils/database.ts:111-130 | the users table reversed, element by element, so ids strictly decrease |
| Database.Db.AllProducts | src/utils/database.ts:225-245 | the products table mapped to API rows and reversed, element by element, so ids strictly decrease |
| Database.Db.CreateUser | src/utils/database.ts:44-59 | appends the user with its password hashed, role defaulted and a fresh id; the products table is untouched |
| Database.Db.UpdateUser | src/utils/database.ts:132-167 | only the row with that id becomes its merge, stamped now; the result is that row, or null when no row has the id |
| Database.Db.DeleteUser | src/utils/database.ts:169-182 | removes exactly the rows with that id, true iff one existed |
| Database.Db.CreateProduct | src/utils/database.ts:184-197 | appends the product with user_id 1 and a fresh id; the users table is untouched |
| Database.Db.UpdateProduct | src/utils/database.ts:247-286 | only the row with that id becomes its merge, stamped now; the result is that row, or null |
| Database.Db.DeleteProduct | src/utils/database.ts:288-301 | removes exactly the rows with that id, true iff one existed |
| Database.Db.PageOfProducts | src/utils/database.ts:326-372 | the page is echoed; on failure (or a negative LIMIT/OFFSET) the result is empty with totals 0; otherwise the window at offset (page-1)*limit of the newest-first list, with total and ceil(total/limit) |
| Database.PageNonEmptyIffInRange | src/utils/database.ts:338-355 | with a positive limit, page p >= 1 holds products exactly when p <= totalPages |
| Http.Strip | src/controllers/UserController.ts:15 | the view keeps every user field but the password |
| Http.Context.constructor | src/controllers/ProductController.ts:9-72 | Oak's initial response: 404 with no body |
| Http.Context.SetUser | src/middleware/auth.ts:25 | sets the authenticated state and leaves the response alone |
| Http.Context.Respond | src/controllers/ProductController.ts:80-84 | sets status and body and leaves the authenticated state alone |
| Js.CeilDiv | src/controllers/ProductController.ts:46 | for a positive limit the result is the least n with total <= n*limit; for limit 0 it is Infinity, or NaN for no items |
| Js.PageStartsInside | src/utils/database.ts:338-355 | with a positive limit, page p starts inside the items iff p <= ceil(total/limit) |
| Js.MorePagesIffMoreItems | src/controllers/ProductController.ts:59 | `page < totalPages` holds exactly when some item lies beyond page `page` |
| Js.LessThan | src/controllers/ProductController.ts:59 | `page < totalPages`, false when either side is NaN and true against Infinity |
| Js.GreaterThan | src/controllers/ProductController.ts:60 | `page > 1`, false for NaN |
| Js.SliceIndex | src/controllers/ProductController.ts:49 | a slice bound is clamped into [0, len] |
| Js.Slice | src/controllers/ProductController.ts:49 | the slice is the contiguous run between the clamped bounds, empty when they cross |
| Js.SliceWindow | src/controllers/ProductController.ts:47-49 | a window of width `limit` holds at most `limit` items, and from an inside start it is the run beginning there |
| Lists.Filter | src/controllers/ProductController.ts:27 | the result holds only elements satisfying the predicate and every such element |
| Lists.FilterConcat | backoffice/src/components/dashboard/StockAlerts.tsx:52-53 | filtering keeps input order: it distributes over concatenation |
| Lists.FilterDrops | src/utils/database.ts:171-176 | the filter removes something iff some element fails the predicate |
| Lists.FilterAnd | src/controllers/ProductController.ts:26-42 | two successive filters are one filter by the conjunction |
| Lists.FilterSame | src/controllers/ProductController.ts:30-42 | predicates that agree everywhere filter identically |
| Lists.FilterAll | src/controllers/ProductController.ts:26-28 | a predicate true on every element filters nothing |
| Lists.Count | backoffice/src/components/dashboard/DashboardStats.tsx:61-62 | the count is the filtered list's length, at most the whole |
| Lists.CountDisjoint | backoffice/src/components/dashboard/DashboardStats.tsx:61-62 | two predicates never true together count at most the whole list |
| Lists.Reverse | src/utils/database.ts:111-130 | element i of the result is element n-1-i of the input |
| Lists.FindFirst | src/utils/database.ts:86-109 | the index of the first match, none iff nothing matches |
| Lists.FindFirstAppend | src/utils/database.ts:86-109 | appending a match to a list without one makes it the first match |
| Lists.FilterIncreasing | src/utils/database.ts:111-130 | filtering keeps a strictly increasing key order |
| Text.ToLower | src/controllers/ProductController.ts:27 | the lower-cased string has the same length and maps each ASCII capital to its small letter, every other character to itself |
| Text.Prefix | public/app.js:362 | `substring(0, n)` is a prefix of length min(n, len) |
| Text.Contains | public/app.js:498 | `includes`: the substring occurs at some index |
| Text.IsBlank | src/controllers/ProductController.ts:282 | `trim()` leaves nothing: every character is ECMAScript white space or a line terminator |
| Text.Split | backoffice/src/hooks/useTranslations.ts:17 | split always yields at least one segment |
| Text.SplitJoin | backoffice/src/hooks/useTranslations.ts:17 | joining the segments gives the key back, and no segment contains a dot |
| ProductApi.OrDefault | src/controllers/ProductController.ts:12-13 | an absent page or limit takes its default (1 and 10), a present one its parsed value |
| ProductApi.UnparsableBoundIgnored | src/controllers/ProductController.ts:30-41 | an unparsable minPrice or maxPrice filters exactly like an absent one |
| ProductApi.WindowMatches | src/controllers/ProductController.ts:26-49 | every product of any window of the filtered list comes from the base list and passes every active filter |
| ProductApi.ApplyFilters | src/controllers/ProductController.ts:26-42 | the category, minPrice and maxPrice filters applied in turn keep exactly the products that pass all active filters, in order |
| ProductApi.CategoryMatches | src/controllers/ProductController.ts:26-28 | no category requested, or the two categories equal after ASCII lower-casing |
| ProductApi.Base | src/controllers/ProductController.ts:19-24 | the search hits when a search term is given, otherwise every product |
| ProductApi.Matching | src/controllers/ProductController.ts:26-42 | a product is kept iff it is in the base list and passes every active filter; never longer than the base |
| ProductApi.GetProducts | src/controllers/ProductController.ts:9-64 | the body is the slice [(page-1)*limit, +limit) of the order-kept filtered list, with total, ceil(total/limit), hasNext = page < totalPages and hasPrev = page > 1; every item passes the category (equal after ASCII lower-casing), min and max filters |
| ProductApi.NegativeFieldError | src/controllers/ProductController.ts:118-135 | price is checked before stock; only defined negative values are refused, and each message appears exactly when its check is the first to fail |
| ProductApi.ZeroAccepted | src/controllers/ProductController.ts:119-135 | price 0 and stock 0 pass |
| ProductApi.GetProductById | src/controllers/ProductController.ts:75-111 | 400 for a NaN id, 404 when absent, otherwise 200 with the product |
| ProductApi.CreateProduct | src/controllers/ProductController.ts:114-154 | 400 for a negative price, then for a negative stock, with the store untouched; otherwise 201 with the new row |
| ProductApi.UpdateProduct | src/controllers/ProductController.ts:157-215 | 400 for a NaN id, then 400 for a defined negative price or stock; otherwise the row is merged and the answer is 404 when no row has the id, or 200 with the row |
| ProductApi.DeleteProduct | src/controllers/ProductController.ts:218-254 | 400 for a NaN id; otherwise the rows with that id are removed, 404 if there were none and 200 if there were |
| ProductApi.SearchProducts | src/controllers/ProductController.ts:277-308 | an empty or whitespace-only term gives 400; otherwise 200 with the hits, their count and the term |
| AuthApi.TokenFor | src/controllers/AuthController.ts:34-43 | the token carries the user's id, email and role and expires 86400000 ms after now |
| AuthApi.AppendKeepsUnique | src/controllers/AuthController.ts:14-24 | inserting a user whose email is free keeps emails unique |
| AuthApi.Authenticate | src/controllers/AuthController.ts:71-92 | login accepts only a user with that email whose stored hash matches; an unknown email is refused; with unique emails, a stored user whose hash matches the password is accepted |
| AuthApi.LoginAfterSingleHash | src/controllers/AuthController.ts:27-33 | a user stored with one hash of the password can log in with it |
| AuthApi.Register | src/controllers/AuthController.ts:11-65 | 400 and no insert for a taken email; otherwise the user is appended with a hashed password and defaulted role, 201 carries it without password plus a token, it can log in, and email uniqueness is preserved |
| AuthApi.Login | src/controllers/AuthController.ts:68-126 | the same 401 for an unknown email and a wrong password; otherwise the user without password and a fresh token |
| AuthApi.GetProfile | src/controllers/AuthController.ts:129-168 | 401 without an authenticated state, 404 for an unknown user id, otherwise 200 with the user without password |
| UserApi.StripAll | src/controllers/UserController.ts:15 | the list holds, position by position, each user with only its password dropped |
| UserApi.PatchAsWritten | src/controllers/UserController.ts:155-161 | as written, a truthy password is hashed before it reaches the database helper |
| UserApi.Patch | src/controllers/UserController.ts:155-161 | the corrected patch hands the password over in clear |
| UserApi.MayUpdate | src/controllers/UserController.ts:146 | the caller is the user being updated, or an admin |
| UserApi.LoginAfterDoubleHash | src/controllers/UserController.ts:102-109 | a user stored with a hash of a hash cannot log in with its password |
| UserApi.UpdatedPasswordLogin | src/controllers/UserController.ts:158-160 | after the as-written update the new password does not log in; after the corrected one it does |
| UserApi.GetUsers | src/controllers/UserController.ts:10-31 | 200 with every user newest first, without passwords, and their count |
| UserApi.GetUserById | src/controllers/UserController.ts:34-73 | 400 for a NaN id, 404 when absent, otherwise the user without password |
| UserApi.CreateUserAsWritten | src/controllers/UserController.ts:76-129 | no state: 500; non-admin: 403; taken email: 400; each with no insert; otherwise 201 and the stored password is a hash of a hash, so the new user cannot log in |
| UserApi.CreateUser | src/controllers/UserController.ts:76-129 | the same checks in the same order; the stored password is hashed once, the user can log in, and email uniqueness is preserved |
| UserApi.UpdateWith | src/controllers/UserController.ts:132-190 | NaN id 400 before the permission check; no state 500; neither self nor admin 403; otherwise only that row is merged, then 404 or 200 with the row |
| UserApi.UpdateUserAsWritten | src/controllers/UserController.ts:132-190 | 400 for a NaN id, then 500 or 403 with the table unchanged, then only the row with that id merged with the pre-hashed password and stamped now, answering 404 or 200 with the stripped row; products and the next user id unchanged |
| UserApi.UpdateUser | src/controllers/UserController.ts:132-190 | 400 for a NaN id, then 500 or 403 with the table unchanged, then only the row with that id merged with the clear password (hashed once) and stamped now, answering 404 or 200 with the stripped row; products and the next user id unchanged |
| UserApi.DeleteUser | src/controllers/UserController.ts:193-249 | admin check first (500/403), then NaN id 400, then self-deletion 400, all with no change; otherwise the rows with that id are removed, 404 if none |
| AuthMiddleware.BearerToken | src/middleware/auth.ts:9-18 | a token exists iff the header starts with the case-sensitive "Bearer ", and the header is "Bearer " followed by it |
| AuthMiddleware.BearerRoundTrip | src/middleware/auth.ts:18 | the header built from a token reads back as that token |
| AuthMiddleware.SchemeIsCaseSensitive | src/middleware/auth.ts:9 | a lower-case "bearer " is refused |
| AuthMiddleware.Downstream.constructor | src/middleware/auth.ts:27 | no downstream call has happened yet |
| AuthMiddleware.Downstream.Next | src/middleware/auth.ts:27 | a call to next is counted once |
| AuthMiddleware.Authenticate | src/middleware/auth.ts:5-43 | no Bearer header: 401 and next not called; a rejected token: 401 and next not called; otherwise the payload is stored and next called once, a throw from it giving 401 |
| AuthMiddleware.OptionalAuthenticate | src/middleware/auth.ts:46-70 | the response is untouched and the downstream runs exactly once; the user is the verified payload or null; when the downstream throws, the user is cleared and the catch's second `next()`, which Oak refuses, makes an error escape |
| DashboardStats.TotalValueConcat | backoffice/src/components/dashboard/DashboardStats.tsx:60 | the stock's worth of a list is the sum of the worths of its parts |
| DashboardStats.TotalValue | backoffice/src/components/dashboard/DashboardStats.tsx:60 | the sum of price times stock over the list; additive over concatenation and non-negative for non-negative inputs (the two lemmas) |
| DashboardStats.TotalValueNonNegative | backoffice/src/components/dashboard/DashboardStats.tsx:60 | with no negative price or stock the worth is never negative |
| DashboardStats.Average | backoffice/src/components/dashboard/DashboardStats.tsx:63 | times the product count the average gives back the stock's worth, and it is 0 with no products |
| DashboardStats.ComputeStats | backoffice/src/components/dashboard/DashboardStats.tsx:59-63 | total is the product count, value the sum of price*stock, low and out-of-stock the sizes of their filters, their sum at most the total, and the average is the worth per product |
| StockAlerts.ComputeAlerts | backoffice/src/components/dashboard/StockAlerts.tsx:52-53 | low stock holds exactly the products with 0 < stock <= 10, out of stock exactly those with stock 0 |
| StockAlerts.AlertsPartition | backoffice/src/components/dashboard/StockAlerts.tsx:97 | the lists are disjoint, negative stock is in neither, and totalAlerts is at most the product count |
| StockAlerts.AlertsKeepOrder | backoffice/src/components/dashboard/StockAlerts.tsx:52-53 | both lists keep the products' order |
| StockAlerts.Shown | backoffice/src/components/dashboard/StockAlerts.tsx:136 | at most the first three entries are shown, three when there are that many |
| StockAlerts.Overflow | backoffice/src/components/dashboard/StockAlerts.tsx:154-157 | the overflow line appears iff the list is longer than three |
| StockAlerts.ShownPlusOverflow | backoffice/src/components/dashboard/StockAlerts.tsx:191-194 | shown entries plus the overflow count are the whole list, and a shown overflow is at least one |
| ProductChart.Percentage | backoffice/src/components/dashboard/ProductChart.tsx:62 | percentage*n = count*100, 0 with no products, and within [0, 100] |
| ProductChart.Buckets | backoffice/src/components/dashboard/ProductChart.tsx:47-64 | five buckets in the declared order, each counting the products with min <= price <= max |
| ProductChart.RangesDisjoint | backoffice/src/components/dashboard/ProductChart.tsx:47-53 | no price lies in two ranges |
| ProductChart.UncountedPrices | backoffice/src/components/dashboard/ProductChart.tsx:47-58 | negative prices and the gaps just above 50, 100, 200 and 500 are counted nowhere |
| ProductChart.Hits | backoffice/src/components/dashboard/ProductChart.tsx:55-58 | a price falls in at most one range |
| ProductChart.CountSumBounded | backoffice/src/components/dashboard/ProductChart.tsx:154 | the counts add to at most the product count, with equality iff every price falls in some range |
| ProductChart.BarWidth | backoffice/src/components/dashboard/ProductChart.tsx:134 | 0 when the maximum is 0, within [0, 100] otherwise, and 100 for the largest bucket |
| ProductChart.MaxCount | backoffice/src/components/dashboard/ProductChart.tsx:114 | the maximum bounds every count and is one of them |
| RecentProducts.Swap | backoffice/src/components/dashboard/RecentProducts.tsx:51 | exchanges two neighbours and keeps the multiset |
| RecentProducts.Insert | backoffice/src/components/dashboard/RecentProducts.tsx:51 | inserts one more product into the sorted prefix, keeping the multiset |
| RecentProducts.SortNewestFirst | backoffice/src/components/dashboard/RecentProducts.tsx:50-51 | the array ends sorted newest first and is a permutation of the original |
| RecentProducts.Recent | backoffice/src/components/dashboard/RecentProducts.tsx:50-52 | min(5, n) products, newest first, a prefix of the sorted array, and none left out is newer than one kept |
| RecentProducts.DiffDays | backoffice/src/components/dashboard/RecentProducts.tsx:68-69 | d is the least whole number of days covering the absolute difference |
| RecentProducts.FormatDate | backoffice/src/components/dashboard/RecentProducts.tsx:65-84 | d = 1 gives "Hoy", d = 2 "Ayer", other d <= 7 "Hace d-1 días", anything else the absolute date |
| RecentProducts.SameInstantIsMinusOneDays | backoffice/src/components/dashboard/RecentProducts.tsx:69-76 | identical instants give "Hace -1 días" |
| RecentProducts.WithinADayIsToday | backoffice/src/components/dashboard/RecentProducts.tsx:68-72 | any other instant at most one day away, either way, is "Hoy" |
| RecentProducts.FutureLikePast | backoffice/src/components/dashboard/RecentProducts.tsx:68 | a future date gets the same day count as the past date equally far away |
| ProductFormFields.SetField | backoffice/src/components/products/CreateProductForm.tsx:24-30 | only the named field changes: text verbatim, price and stock parsed or 0 |
| ProductFormFields.UnparsableNumberIsZero | backoffice/src/components/products/CreateProductForm.tsx:28 | an unparsable number leaves 0 in the field |
| ProductFormFields.Validate | backoffice/src/components/products/CreateProductForm.tsx:35-54 | each message appears exactly when its check is the first to fail: no user, blank name or description, price <= 0, stock < 0 |
| ProductFormFields.FractionalStockAccepted | backoffice/src/components/products/CreateProductForm.tsx:28-51 | a stock of 2.5 passes validation |
| CreateProductForm.Form.constructor | backoffice/src/components/products/CreateProductForm.tsx:12-22 | an empty form, not loading, no error, nothing sent |
| CreateProductForm.Form.HandleInputChange | backoffice/src/components/products/CreateProductForm.tsx:24-30 | the form data becomes the field update and nothing else changes |
| CreateProductForm.Form.Post | backoffice/src/components/products/CreateProductForm.tsx:65-72 | the current form data is sent once |
| CreateProductForm.Form.HandleSubmit | backoffice/src/components/products/CreateProductForm.tsx:32-94 | a failed check sets its message and sends nothing, with loading unchanged; otherwise exactly one POST, and success, a session error or the failure message, with loading false |
| EditProductForm.ReplyError | backoffice/src/components/products/EditProductForm.tsx:52-60 | 401 gives the session message, 404 "Producto no encontrado.", any other failure its own message |
| EditProductForm.FromProduct | backoffice/src/components/products/EditProductForm.tsx:66-73 | the form takes the product's fields, a null image becoming the empty string |
| EditProductForm.Form.constructor | backoffice/src/components/products/EditProductForm.tsx:17-29 | an empty form for that product id, loading, not saving |
| EditProductForm.Form.FetchProduct | backoffice/src/components/products/EditProductForm.tsx:36-82 | without a token or on a failed reply only the error is set; otherwise the product and the form from it with the id; loading ends false |
| EditProductForm.Form.HandleInputChange | backoffice/src/components/products/EditProductForm.tsx:84-90 | the form data becomes the field update and nothing else changes |
| EditProductForm.Form.Put | backoffice/src/components/products/EditProductForm.tsx:125-132 | the current form data is sent once |
| EditProductForm.Form.HandleSubmit | backoffice/src/components/products/EditProductForm.tsx:92-157 | a failed check sets its message and sends no PUT, with saving unchanged; otherwise exactly one PUT and the reply's outcome, saving false |
| AdminPanel.DescriptionCell | public/app.js:362 | a description of at most 50 code points is shown whole; a longer one as its first 50 code points and "..." |
| AdminPanel.StockBadge | public/app.js:364 | the badge is danger iff stock < 10 |
| AdminPanel.RenderRows | public/app.js:353-377 | one row per product in order, with name, truncated description and category cells |
| AdminPanel.EmptySearchShowsAll | public/app.js:490-503 | an empty term shows every row |
| AdminPanel.SearchShows | public/app.js:491-498 | the ASCII-lower-cased term occurs in the ASCII-lower-cased name or description cell |
| AdminPanel.CategoryShows | public/app.js:507-513 | no category selected, or exactly the selected one |
| AdminPanel.LongTermNeedsName | public/app.js:496 | a term longer than 53 characters can only match the name, since the search reads the truncated cell |
| AdminPanel.ProductsTable.constructor | public/app.js:353-377 | the rows are rendered from the products and all shown |
| AdminPanel.ProductsTable.Search | public/app.js:490-503 | each row is shown iff the term, ASCII-lower-cased, occurs in its ASCII-lower-cased name or description cell |
| AdminPanel.ProductsTable.FilterCategory | public/app.js:506-518 | each row is shown iff no category is selected or its category equals the selection exactly |
| AdminPanel.Distinct | public/app.js:380 | the same values as the input, each once |
| AdminPanel.Categories | public/app.js:380 | the category of each product, position by position |
| AdminPanel.FirstIndex | public/app.js:380 | the first position of a value |
| AdminPanel.FirstIndexPrefix | public/app.js:380 | appending does not move a value's first position |
| AdminPanel.DistinctFirstOccurrenceOrder | public/app.js:380 | the distinct values come in first-occurrence order |
| AdminPanel.CategoryOptions | public/app.js:379-391 | the "Todas las categorías" option first, then one option per distinct category, none twice, in the order of each category's first occurrence among the products |
| AdminPanel.Navigation.constructor | public/app.js:232-241 | the tabs and panes as given |
| AdminPanel.Navigation.SwitchTab | public/app.js:232-241 | a nav item is active iff its tab is the name, a pane iff its id is the name plus "Tab" |
| AdminPanel.Navigation.OnePaneActive | public/app.js:239-241 | with unique pane ids exactly one pane is active after the switch |
| AdminPanel.Session.constructor | public/app.js:5-6 | no current user; the token is whatever storage holds |
| AdminPanel.Session.HandleLogout | public/app.js:197-203 | both stored keys and both globals are cleared, the login section shows and the toast is queued |
| AuthContext.AuthorizationFor | backoffice/src/context/AuthContext.tsx:64-75 | a header is attached iff the stored token is usable (non-empty, not "undefined", not "null"), and it is "Bearer " plus the token |
| AuthContext.InterceptorHeaderRoundTrip | backoffice/src/context/AuthContext.tsx:68-69 | a Bearer reader recovers exactly the stored token from the header, and no token when none is usable |
| AuthContext.Stored | backoffice/src/context/AuthContext.tsx:110 | a reply without a token stores "undefined", which is not usable |
| AuthContext.ErrorMessage | backoffice/src/context/AuthContext.tsx:114 | the server's message unless it is missing or empty, else the fallback |
| AuthContext.AuthProvider.constructor | backoffice/src/context/AuthContext.tsx:53-54 | no user, loading, nothing sent |
| AuthContext.AuthProvider.CheckAuthStatus | backoffice/src/context/AuthContext.tsx:76-99 | an unusable token: no request and the user unchanged; otherwise one profile request with the header, a reply setting the user and a failure removing the token and the user; loading ends false |
| AuthContext.AuthProvider.Settle | backoffice/src/context/AuthContext.tsx:108-117 | a signed reply stores the token and user and returns true; a refusal throws the message or fallback and changes nothing; loading ends false |
| AuthContext.AuthProvider.Login | backoffice/src/context/AuthContext.tsx:102-118 | one login request; success stores the token and user and returns true; failure throws the server message or "Error en el login" |
| AuthContext.AuthProvider.Register | backoffice/src/context/AuthContext.tsx:121-137 | one register request; the same outcomes with "Error en el registro" |
| AuthContext.AuthProvider.Logout | backoffice/src/context/AuthContext.tsx:139-160 | the backend is told only with a usable token; the token and user are always removed, whatever the backend answers |
| AuthErrorHook.MessageOf | backoffice/src/hooks/useAuthError.ts:12-20 | an Error gives its message, a string itself, anything else the fixed default |
| AuthErrorHook.AuthErrorState.constructor | backoffice/src/hooks/useAuthError.ts:9-10 | no error, not submitting |
| AuthErrorHook.AuthErrorState.HandleError | backoffice/src/hooks/useAuthError.ts:12-20 | the error becomes the thrown value's message and submitting is unchanged |
| AuthErrorHook.AuthErrorState.ClearError | backoffice/src/hooks/useAuthError.ts:22-24 | no error, submitting unchanged |
| AuthErrorHook.AuthErrorState.StartSubmitting | backoffice/src/hooks/useAuthError.ts:26-29 | submitting, with no error |
| AuthErrorHook.AuthErrorState.StopSubmitting | backoffice/src/hooks/useAuthError.ts:31-33 | not submitting, error unchanged |
| Translations.TableFor | backoffice/src/hooks/useTranslations.ts:11-13 | 'es' selects the Spanish table, anything else the English one |
| Translations.Index | backoffice/src/hooks/useTranslations.ts:21 | a step succeeds iff the value is an object with that key |
| Translations.WalkIsAt | backoffice/src/hooks/useTranslations.ts:20-23 | stopping at the first falsy value reaches a truthy value exactly when the full path does, and the same one |
| Translations.Walk | backoffice/src/hooks/useTranslations.ts:20-23 | the value the loop holds after stepping key by key and stopping at the first falsy value; agrees with the full path lookup on truthy results (WalkIsAt) |
| Translations.Translation | backoffice/src/hooks/useTranslations.ts:15-29 | the key's path value when it is truthy, otherwise the key |
| Translations.T | backoffice/src/hooks/useTranslations.ts:15-29 | the loop with its early break returns exactly the translation |
| Translations.SplitNoSeparator | backoffice/src/hooks/useTranslations.ts:17 | a key without dots is one segment |
| Translations.SplitAfterSegment | backoffice/src/hooks/useTranslations.ts:17 | a dot-free segment then a dot splits off as one part |
| Translations.JoinSplit | backoffice/src/hooks/useTranslations.ts:17 | splitting the dotted key of a path gives that path back |
| Translations.PathKey | backoffice/src/hooks/useTranslations.ts:17-25 | the dotted key of a path translates to the non-empty value at its end, and to itself when a segment is missing or the leaf is empty |

## Left out

- Connections, SQL execution, row mapping and error logging are not modelled. The tables are sequences, and `ORDER BY id DESC` is their reversal.
- The MySQL error paths are not modelled. These are the catch blocks in the helpers that return null or false, or rethrow. The exception is the pagination helper's failure, which is a parameter.
- `getDashboardStats` and the `getDashboard` handler are aggregate SQL and are not modelled.
- Outer `catch` blocks that answer 500 after a database error are not modelled. The 500 that `createUser`/`updateUser`/`deleteUser` give when there is no authenticated state is modelled, because it comes from reading a property of null.
- ProductApi.UpdateProduct: update bodies are typed, so a JSON `null` or a string given as `price` or `stock` is not modelled. The source lets such a value past its `!== undefined && < 0` checks and writes it to the column.
- Database.MergeProduct: the patch holds a number or nothing for price and stock, so a `null` or string value that `!== undefined` lets through is not modelled.
- AdminPanel.ProductsTable.Search: rows are built with `innerHTML` and searched on their `textContent`, so markup or HTML entities in a name or description are searched as rendered text. The model searches the raw string.
- AdminPanel.ProductsTable.FilterCategory: reads the category cell's rendered text as well. The model compares the raw category string.
- Bodies with missing fields (an undefined price or name in a create body) are not modelled. The bodies are records with every field present, and "absent" appears only where the code tests for it.
- `searchProducts`' `LIKE` matching is not modelled: the hits are a parameter.
- bcrypt, djwt signing and verification, and Sanctum are symbolic. Token expiry is part of the `verify` parameter.
- `filter_var` URL validation is a predicate parameter.
- What `parseInt` and `parseFloat` return is a parameter. Only the NaN-or-integer distinction and the absent-or-empty parameter are kept.
- JavaScript numbers are modelled as mathematical integers and reals. Floating-point rounding, and number formatting (`toFixed`, `toLocaleString`, `toLocaleDateString`), are left out. An absolute date label carries only its instant.
- Dates are integer milliseconds (or seconds for PHP). `new Date(string)` parsing is not modelled.
- Network calls, local storage, `setTimeout` redirects, router navigation, console logging, JSX rendering and styling are not modelled. Replies are parameters, and storage is a field.
- Laravel controllers, FormRequests, routing, DI wiring, seeders and the pass-through use cases are not modelled. They map exceptions to status codes or declare configuration.
- The rest of `public/app.js` is not modelled: login, register, modals, loaders and the user table. The toast is recorded as an entry in a list.
- `AuthContext`'s `useAuth` guard, the `useEffect` that runs `checkAuthStatus` on mount, and the axios base URL are not modelled.
- RecentProducts.SortNewestFirst: proves sorted and a permutation, not the stability of JavaScript's `sort`. How ties in `created_at` end up ordered is not stated.
- Translations.Index: JavaScript property access on a string (`"abc"["0"]`, `"abc"["length"]`) and inherited object properties such as `constructor` are not modelled. A string has no keys, and locale values are only strings and objects.
- Translations.T: the `catch` that returns the key is not modelled. In the model no step can throw, because the walk stops at the first falsy value before it could index it.
- AuthMiddleware.OptionalAuthenticate: the refusal of a second `next()` comes from Oak's middleware composition, not from this repository. The answer Oak gives for the error that then escapes is not modelled; only `escaped` records it.
- AuthMiddleware.Authenticate: the outer `catch` answering 500 is not modelled. Only reading the header could reach it.
- Text.ToLower: only ASCII letters are folded and the length is kept. JavaScript's `toLowerCase` folds all of Unicode and can change the length ("İ" gives two code units), so non-ASCII letters such as "Ó" and "ó" are not matched.
- ProductApi.CategoryMatches: uses the ASCII-only Text.ToLower, so a category such as "ELECTRÓNICA" does not match "Electrónica" in the model though it does in the source.
- ProductApi.GetProducts: its category filter is CategoryMatches, with the same ASCII-only case folding.
- AdminPanel.SearchShows: uses the ASCII-only Text.ToLower, so non-ASCII letters are compared case-sensitively.
- AdminPanel.ProductsTable.Search: shows a row by SearchShows, with the same ASCII-only case folding.
- AdminPanel.DescriptionCell: lengths and `substring(0, 50)` are counted in code points, not UTF-16 code units, so text with characters outside the Basic Multilingual Plane (emoji) is cut at a different place.
- ProductUseCases.Saved: Eloquent's dirty check is modelled as value equality of the six columns; the casts Eloquent applies before comparing (a price as a decimal string) are not modelled.
- The dashboard widgets' own error and loading states around their fetches are not modelled.

## Findings

| source | as written | input that shows it | evidently intended | confidence | as-written member | corrected member |
|---|---|---|---|---|---|---|
| app/Application/Product/UseCases/DeleteProductUseCase.php:22 | `$product->hasStock()` calls a method that Product.php does not define, so every delete of an existing product stops with an error | product 7, stock 0, created long ago: every intended guard passes, yet it is not deleted (`AsWrittenDeleteRefusesDeletable`) | refuse deletion while stock > 0 | high; not executed | ProductUseCases.DeleteProductAsWritten | ProductUseCases.DeleteProduct |
| src/controllers/UserController.ts:102-109 | the handler hashes the password and `Database.createUser` (src/utils/database.ts:46) hashes it again | an admin creates a user with password "pw"; logging in with "pw" fails (`LoginAfterDoubleHash`) | the password is hashed once, as `register` does | high; not executed | UserApi.CreateUserAsWritten | UserApi.CreateUser |
| src/controllers/UserController.ts:158-160 | the handler hashes a new password and `Database.updateUser` (src/utils/database.ts:145-147) hashes it again | a user changes their password to "new"; logging in with "new" fails (`UpdatedPasswordLogin`) | the password is hashed once | high; not executed | UserApi.UpdateUserAsWritten | UserApi.UpdateUser |
