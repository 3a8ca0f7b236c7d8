# BoldServe admin console — a verified model

BoldServe's admin console is a React single-page application. Administrators use it to log in, browse and
delete products, create services, and look at orders, payments and registered users. This project models
its core in Dafny:

- **The HTTP layer** (`src/utils/axios.js`):
  - the configured axios instance, with its bearer-token request interceptor and its response-error
    interceptor (timeout and network classification, and the global "401 logs you out" reaction);
  - the resource functions the screens call.
- **The `auth` slice of the Redux store** (`src/redux/slices/authSlice.js`).
- **The application shell** (`src/App.js`): the `isAuthenticated` flag, its start-up check and the
  protected route table.
- **The six screens** the shell mounts: login, products, orders, payments, users and the create-service
  form.

How each part is written:

- Every network call takes the transport's answer as a parameter, `Http.Outcome`: either a resolved
  response (status and JSON body) or a rejection (axios error code, message and, when the server
  answered, the error response).
- Browser storage and the current location live in a `Web.Browser` object.
- A full page load, which the 401 handler's assignment to `window.location.href` causes, restarts the
  shell from storage (`App.Reloaded`). React-router's `navigate` only changes the location.
- Each screen is a class whose fields are its `useState` slots. Its handlers are methods, and their
  postconditions tie the new state to pure functions of the old state and of the outcome.
- The properties the console promises, and some it silently breaks, are lemmas about those functions.

Module layout (one file each):

- `Wrappers`: `Option` and `Result`.
- `Text`: decimal printing and reading back, ASCII upper-casing, splitting.
- `Uri`: `encodeURIComponent` and its percent-decoding inverse.
- `Js`: JSON values, truthiness, `||`, property access, `Array.prototype.filter`.
- `Web`: `localStorage` and the location.
- `Http`: the configured instance.
- `Api`: the axios.js resource functions.
- `AuthSlice`, `App`, `AdminLogin`, `AdminProduct`, `Orders`, `Payments`, `Users`, `Services`.

Facts the model makes explicit:

- **Orders never lists an order.** `paymentAPI.getAllPayments` resolves with the axios response object.
  `Orders.jsx` tests that object's `success`, which a response object never has, so every resolved call
  empties both buckets (`Orders.OrdersNeverListed`).
- **Login does not create a session token.** The login screen checks a fixed credential pair in the
  browser and writes only `isAdminLoggedIn`. The shell's start-up check reads `adminToken`, so a reload
  logs the administrator out unless a token was already stored (`AdminLogin.LoginLeavesTokenAlone`).
- **`setToken(null)` breaks the store.** It leaves the slice authenticated without a token and stores the
  text `"null"`, which the next start-up reads back as a token (`AuthSlice.NullPayloadBreaksConsistency`).
- **Submitting a service breaks the form.** The submit ignores `validateForm`. The post-submit reset drops
  the `images` array the form renders from (`Services.SubmitIgnoresValidation`,
  `Services.ResetBreaksTheForm`).

## Model

| member | source | states |
|---|---|---|
| Http.WithToken | src/utils/axios.js:49-57 | the interceptor only adds or overwrites `Authorization`; every other header goes out unchanged |
| Http.InterceptRequest | src/utils/axios.js:49-57 | the request interceptor leaves the URL alone and sets the headers to `WithToken` of the stored token |
| Http.BearerHeader | src/utils/axios.js:52-56 | a request carries `Authorization: Bearer <token>` iff the URL is not a user route and a non-empty token is stored; otherwise the default headers go out unchanged |
| Http.UserRoutesCarryNoToken | src/utils/axios.js:52 | any URL containing `/api/users` goes out without a bearer header, whatever is stored |
| Http.InterceptResponseError | src/utils/axios.js:75-97 | a timeout becomes "Request timeout", a missing response becomes "Network error", and any other error is passed on; only a non-timeout 401 removes `adminToken` and assigns `/login` to `window.location.href` |
| Http.Send | src/utils/axios.js:49-97 | one request on the configured instance: the headers it carries after interception, how it settles, and the storage and location after it |
| Http.RejectionClassification | src/utils/axios.js:76-84 | a call is rejected iff its request was; timeouts and unanswered requests lose the response; only an answered, non-timeout failure keeps its status and message |
| Http.OnlyUnauthorizedResetsSession | src/utils/axios.js:93-96 | storage or location change only on a non-timeout 401; then `adminToken` is gone, the location is `/login`, and every other storage key is unchanged |
| Api.GetStoredToken | src/utils/axios.js:39-46 | the stored token, or null exactly when `adminToken` is missing or empty |
| Api.CheckAuthStatus | src/utils/axios.js:102-105 | true iff a non-empty `adminToken` is stored |
| Api.AvailabilityAuthorization | src/utils/axios.js:22-27 | the probe sends `Bearer ` followed by the raw stored value, or `Bearer null` when nothing is stored |
| Api.ServerAvailable | src/utils/axios.js:20-36 | the server counts as down iff the probe is rejected without a response, or with a status other than 401 and 403 |
| Api.Login | src/utils/axios.js:109-121 | returns the reply body (an error for a failed call or a null body); writes `adminToken` with the reply's token only when `success` and `token` are truthy; otherwise storage changes only through the 401 rule |
| Api.LoginTokenRule | src/utils/axios.js:112-116 | a reply with truthy `success` and `token` stores that token; any other resolved reply leaves storage unchanged; an object body is returned unchanged; the call fails iff the request was rejected or the body is null |
| Api.UsersEnvelope | src/utils/axios.js:148-166 | resolves iff the bare call resolves with a truthy body; a falsy body gives "Invalid response format"; a rejection is passed on unchanged |
| Api.UsersEnvelopeShapes | src/utils/axios.js:155-159 | a bare array, `{data: [...]}` and an object without `data` are all wrapped, with `data` holding the list (or the body itself); `success` is always true and `data` always truthy |
| Api.ResponseObject | src/utils/axios.js:194-195 | the value returned is the response object, whose `data` member is the body |
| Api.GetAllPayments | src/utils/axios.js:192-200 | resolves with the response object, not its body; errors are re-thrown as the interceptor left them |
| Api.PaymentsResultHasNoSuccess | src/utils/axios.js:194-195 | whatever the backend sends, the value `getAllPayments` resolves with has no truthy `success` |
| Api.FormData.Append | src/utils/axios.js:233-238 | `append` adds one entry at the end |
| Api.WithServiceDefaults | src/utils/axios.js:233-238 | the defaults only ever append entries; the original entries stay, in order, as a prefix |
| Api.FirstValueAppend | src/utils/axios.js:233-238 | after an `append`, `get(name)` returns the earlier value when the name was already present, and otherwise the appended value for that name |
| Api.ServiceDefaultsKeepExisting | src/utils/axios.js:233-238 | existing keys keep their values; a missing `name` is filled from `productName` (the text "null" when that is absent too); a missing `duration` becomes "0"; afterwards both keys are present, and exactly one entry was added for each missing key |
| Api.CreateService | src/utils/axios.js:224-253 | fills in the defaults in the caller's FormData, posts it as multipart, and returns the body or re-throws the error |
| Api.ProductsOutcome | src/utils/axios.js:266-285 | resolves iff the call resolves with a truthy body, and then with that body; every failure is re-thrown as a message-only error starting "Failed to fetch products: " |
| Api.GetAllProducts | src/utils/axios.js:266-285 | the method settles as `ProductsOutcome`, with the interceptors' storage and location effects |
| Api.DeleteUrl | src/utils/axios.js:291 | the id is printed into the path under `/api/services/admin/products/` |
| Api.DeleteOutcome | src/utils/axios.js:288-308 | resolves iff the call resolves with a truthy body; every failure is re-thrown as a message-only error starting "Failed to delete product: " |
| Api.DeleteProduct | src/utils/axios.js:288-308 | addresses `DeleteUrl(id)` and settles as `DeleteOutcome` |
| Api.CategoryQueryShape | src/utils/axios.js:313-315 | the query is `?category=<enc>`, with `&subCategory=<enc>` appended exactly when the sub-category is truthy |
| Api.CategoryQueryParams | src/utils/axios.js:313-315 | split at `&` and `=`, the query yields exactly the pairs (category, encoded category) and, when given, (subCategory, encoded sub-category) |
| Api.CategoryQueryRoundTrip | src/utils/axios.js:311-323 | read back, the query holds `category` and, only when one was given, `subCategory`, and each value percent-decodes to the UTF-8 bytes of its argument |
| Api.GetProductsByCategory | src/utils/axios.js:311-323 | requests `/api/services/category` followed by `CategoryQuery`, and returns the body or re-throws |
| Uri.DecodeEncode | src/utils/axios.js:314-315 | percent-decoding `encodeURIComponent(s)` gives back the UTF-8 encoding of `s` |
| Uri.NoDelimiters | src/utils/axios.js:314-315 | an encoded value never contains `&`, `=`, `?` or `#`, so it cannot break the query into other parameters or end it |
| Uri.EncodedIsQuerySafe | src/utils/axios.js:314-315 | every character of an encoded value is unreserved or part of a `%XX` escape |
| AuthSlice.Stored | src/redux/slices/authSlice.js:15 | storing a payload keeps its text; a null payload is stored as the text "null" |
| AuthSlice.Initial | src/redux/slices/authSlice.js:3-6 | the start-up token is the stored value; the session is authenticated iff that value is present and non-empty |
| AuthSlice.AfterSetToken | src/redux/slices/authSlice.js:12-16 | `setToken` holds the payload, is authenticated, stores the payload's text under `adminToken`, and leaves every other key unchanged |
| AuthSlice.AfterClearToken | src/redux/slices/authSlice.js:17-21 | `clearToken` holds no token, is not authenticated, removes `adminToken`, and leaves every other key unchanged |
| AuthSlice.InitialConsistency | src/redux/slices/authSlice.js:3-6 | the start-up state agrees with itself and with storage iff the stored token is not the empty string |
| AuthSlice.ReducersKeepConsistency | src/redux/slices/authSlice.js:12-21 | from any state, `clearToken` and `setToken` with a non-null payload leave a consistent session |
| AuthSlice.NullPayloadBreaksConsistency | src/redux/slices/authSlice.js:12-16 | `setToken(null)` leaves the session authenticated with no token, and a reload reads the text "null" back as the token |
| AuthSlice.ClearTokenIdempotent | src/redux/slices/authSlice.js:17-21 | clearing twice is clearing once, and clearing after any `setToken` forgets it, state and storage alike |
| AuthSlice.ReloadAgrees | src/redux/slices/authSlice.js:3-21 | after either reducer (with a non-empty token), a store rebuilt from storage equals the state the reducer left |
| AuthSlice.Auth.constructor | src/redux/slices/authSlice.js:3-6 | the store starts in `Initial(storage)` |
| AuthSlice.Auth.SetToken | src/redux/slices/authSlice.js:12-16 | the slice and the storage move to `AfterSetToken`, and the location is unchanged |
| AuthSlice.Auth.ClearToken | src/redux/slices/authSlice.js:17-21 | the slice and the storage move to `AfterClearToken`, and the location is unchanged |
| App.NormalPath | src/App.js:71-140 | the location as the router compares it, lower-cased and without trailing slashes, is never empty |
| App.TrimTrailingSlashes | src/App.js:71-140 | removes exactly a final run of `/` and leaves no trailing `/` |
| App.RouteTableRoundTrip | src/App.js:71-140 | every protected screen is found at its own path, and a location selects it iff its normalised form is that path; `/login` is not a protected path |
| App.CaseIsIgnored | src/App.js:71-140 | an upper-cased location selects the same screen as the location |
| App.TrailingSlashesAreIgnored | src/App.js:71-140 | appending any run of `/` to a location selects the same screen |
| App.VariantLocationsReachPages | src/App.js:111-130 | `/Orders/` reaches the orders screen and `/PAYMENTS` the payments screen |
| App.ProtectedRoute | src/App.js:16-18 | the screen iff authenticated, otherwise a redirect to `/login` |
| App.UnauthenticatedSeesOnlyLogin | src/App.js:32-33 | while unauthenticated every location shows the login screen and no protected screen |
| App.AuthenticatedReachesEveryPage | src/App.js:71-140 | when authenticated, each screen shows at its own path and exactly at the locations that normalise to it, and `ProtectedRoute` never redirects |
| App.Reloaded | src/App.js:21-28 | after a full page load the flag is the rebuilt store's `isAuthenticated`: raised iff a non-empty token is stored |
| App.ReloadAfter401 | src/utils/axios.js:92-96 | a 401 reloads the page with no token: the gate is closed, every location shows the login screen and the rebuilt store is not authenticated; any other outcome leaves the reloaded state unchanged |
| App.MountEffectRule | src/App.js:23-28 | the mount effect never lowers the flag; from `false` it raises it iff a non-empty token is stored, agreeing with `checkAuthStatus` and with the store's start-up state |
| App.AppState.constructor | src/App.js:21 | the flag starts false |
| App.AppState.MountEffect | src/App.js:23-28 | the flag becomes `AfterMount` of the flag and of the stored token |
| App.AppState.SetIsAuthenticated | src/App.js:21 | the setter handed to the login screen replaces the flag |
| AdminLogin.TryLogin | src/components/AdminLogin.jsx:67-90 | success iff the id is `Admin` and the password is `Admin123`; success writes `isAdminLoggedIn = "true"`, clears the error and goes to `/`; failure sets "Invalid credentials" and changes neither storage nor location |
| AdminLogin.LoginLeavesTokenAlone | src/components/AdminLogin.jsx:74-78 | no attempt touches `adminToken`, so neither the shell's start-up check nor the store's start-up state is affected |
| AdminLogin.AttemptDecidesView | src/components/AdminLogin.jsx:74-82 | after an attempt the shell shows the dashboard iff the credentials matched, and the login screen otherwise |
| AdminLogin.LoginForm.constructor | src/components/AdminLogin.jsx:58-64 | empty credentials, no error, password hidden, not loading |
| AdminLogin.LoginForm.SetUserId | src/components/AdminLogin.jsx:132 | replaces the id and nothing else |
| AdminLogin.LoginForm.SetPassword | src/components/AdminLogin.jsx:149 | replaces the password and nothing else |
| AdminLogin.LoginForm.ToggleShowPassword | src/components/AdminLogin.jsx:158 | flips password visibility and nothing else |
| AdminLogin.LoginForm.HandleLogin | src/components/AdminLogin.jsx:67-90 | the screen's error, the shell's flag, the storage and the location become those of `TryLogin`; loading ends false |
| AdminProduct.FetchedProducts | src/components/AdminProduct.jsx:31-50 | a list is installed iff the call resolves with a truthy `data`: the array itself, or `[]` for any other truthy `data` |
| AdminProduct.AfterDelete | src/components/AdminProduct.jsx:56-66 | the delete ends in the error path iff the call failed or some held product is null |
| AdminProduct.DeleteKeepsTheOthers | src/components/AdminProduct.jsx:59 | after a delete, a product is kept iff it was held and its `_id` differs, in the original order |
| AdminProduct.DeleteOfUniqueId | src/components/AdminProduct.jsx:59 | when exactly one product has the id, exactly that one is removed |
| AdminProduct.SelectedId | src/components/AdminProduct.jsx:239 | the dialog passes `undefined` when no product is selected |
| AdminProduct.GetImageUrl | src/components/AdminProduct.jsx:68-80 | a non-empty array gives the backend host followed by its first path |
| AdminProduct.ImageUrlSource | src/components/AdminProduct.jsx:68-80 | the URL starts with the backend host iff the product has images; otherwise it is the placeholder |
| AdminProduct.Render | src/components/AdminProduct.jsx:82-207 | a spinner iff loading; otherwise a throw iff some held product is null or has a `productName` or `category` React cannot print; otherwise the retry button and the error snackbar show iff there is an error, the success snackbar iff there is a message, with one card per held product |
| AdminProduct.RetryAfterFetch | src/components/AdminProduct.jsx:31-50 | after a fetch the page throws iff a card of the list shown throws; when it draws, the retry button shows iff the fetch failed, and a failed fetch keeps the cards shown before |
| AdminProduct.NullProductBreaksThePage | src/components/AdminProduct.jsx:40 | a fetched list holding a null breaks the page once installed |
| AdminProduct.ObjectFieldBreaksThePage | src/components/AdminProduct.jsx:200-205 | a product breaks the page iff its name or category is an object or an array holding one |
| AdminProduct.ProductList.constructor | src/components/AdminProduct.jsx:24-29 | no products, loading, no error, dialog closed, nothing selected, no message |
| AdminProduct.ProductList.FetchProducts | src/components/AdminProduct.jsx:31-50 | installs `FetchedProducts` and clears the error, or keeps the list and sets the load error; loading ends false |
| AdminProduct.ProductList.HandleDelete | src/components/AdminProduct.jsx:56-66 | on success: the filtered list, a closed dialog and the success message; on failure: only the delete error |
| AdminProduct.ProductList.ConfirmDelete | src/components/AdminProduct.jsx:239 | deletes the selected product's id: on success the filtered list, a closed dialog and the success message with the error kept; on failure only the delete error; loading and the selection unchanged |
| AdminProduct.ProductList.OpenDeleteDialog | src/components/AdminProduct.jsx:210-213 | remembers the product and opens the dialog |
| AdminProduct.ProductList.CloseDeleteDialog | src/components/AdminProduct.jsx:230 | closes the dialog and nothing else |
| AdminProduct.ProductList.DismissError | src/components/AdminProduct.jsx:113 | clears the error and nothing else |
| AdminProduct.ProductList.DismissSuccess | src/components/AdminProduct.jsx:129 | clears the success message and nothing else |
| Orders.Partition | src/components/Orders.jsx:83-95 | a falsy `success` gives two empty buckets; it throws a TypeError iff `success` is truthy and `data` (or `[]` when falsy) is not an array or holds a null order; otherwise the two filters over that list |
| Orders.PartitionMembership | src/components/Orders.jsx:86-91 | each bucket holds, in the original order, exactly the orders its test accepts |
| Orders.BucketsOverlap | src/components/Orders.jsx:86-91 | the buckets are neither disjoint nor exhaustive: an accepted order whose payment failed is listed twice, and a pending one is not listed |
| Orders.ErrorMessage | src/components/Orders.jsx:100-102 | the "not found" text iff the error carries a 404 response, the failure text otherwise |
| Orders.OrdersNeverListed | src/components/Orders.jsx:80-102 | a fetch succeeds iff the call resolves, and then always with two empty buckets; it shows "not found" iff the call was rejected with a non-timeout 404 |
| Orders.FirstTruthy | src/components/Orders.jsx:216-218 | the fallback chain is always truthy, and is "N/A" or one of the named properties |
| Orders.FirstTruthyIsEarliest | src/components/Orders.jsx:216-218 | the chain picks the earliest truthy property |
| Orders.FirstTruthyDefault | src/components/Orders.jsx:216-218 | with no truthy property the cell reads "N/A" |
| Orders.IdCell | src/components/Orders.jsx:216 | the Payment ID cell is always truthy |
| Orders.IdCellPreference | src/components/Orders.jsx:216 | the cell shows `paymentId`, else `_id`, else "N/A" |
| Orders.Render | src/components/Orders.jsx:119-192 | a spinner iff loading; the empty state iff both buckets are empty, showing the error or the default text; otherwise the tabs carry `TabLabels`, tab 0 lists `accepted` and any other tab `cancelled` |
| Orders.TabLabelsCount | src/components/Orders.jsx:184-185 | two labels, "Successful Payments (n)" and "Failed Payments (m)" with the two bucket sizes, which read back as those numbers |
| Orders.AlwaysEmptyAfterFetch | src/components/Orders.jsx:74-156 | after any fetch from an empty screen, the empty state shows the 404 text, the failure text or the default text |
| Orders.OrdersPage.constructor | src/components/Orders.jsx:62-66 | tab 0, no orders, loading, no error |
| Orders.OrdersPage.FetchOrders | src/components/Orders.jsx:74-106 | installs the buckets and clears the error, or keeps the buckets and sets the message; loading ends false |
| Orders.OrdersPage.HandleTabChange | src/components/Orders.jsx:111-117 | the tab becomes the new value once the timer fires |
| Payments.FetchResult | src/components/Payments.jsx:37-65 | buckets are installed only for a resolved body with truthy `success` and an array `data`, and are the two filters over it |
| Payments.FetchFailsExactly | src/components/Payments.jsx:37-65 | the catch path is taken iff the call failed, `success` is falsy, `data` is not an array, or a payment is null |
| Payments.BucketsPartition | src/components/Payments.jsx:49-52 | each bucket holds, in order, exactly the payments its test accepts, and no payment is in both |
| Payments.StatusColour | src/components/Payments.jsx:142-144 | the status is green iff it is `successful` or `completed` |
| Payments.StatusText | src/components/Payments.jsx:148 | a missing status reads "N/A"; rendering throws iff the status is present and not a string |
| Payments.UpperCaseStatuses | src/components/Payments.jsx:148 | the four known statuses upper-case to SUCCESSFUL, COMPLETED, FAILED and CANCELLED |
| Payments.StatusCellOfBuckets | src/components/Payments.jsx:142-148 | a payment passing a filter shows its upper-cased status in that filter's colour |
| Payments.RowsMatchTheirTab | src/components/Payments.jsx:49-52 | every row in the successful tab is green and reads SUCCESSFUL or COMPLETED; every row in the failed tab is red and reads FAILED or CANCELLED |
| Payments.PaymentTable | src/components/Payments.jsx:129-157 | one row per payment iff the list is non-empty, otherwise the placeholder row |
| Payments.TabLabelsCount | src/components/Payments.jsx:178-185 | two labels, "Successful Payments (n)" and "Failed Payments (m)" with the two bucket sizes, which read back as those numbers |
| Payments.Render | src/components/Payments.jsx:74-191 | a spinner iff loading; the empty state iff both buckets are empty; otherwise the tabs carry `TabLabels`, tab 0 shows the successful table, tab 1 the failed table, and any other tab no table |
| Payments.ViewAfterFetch | src/components/Payments.jsx:93-113 | a failed fetch lands on the empty state; a successful one shows the empty state iff no payment is successful or failed |
| Payments.PaymentsPage.constructor | src/components/Payments.jsx:31-34 | tab 0, empty buckets, loading, no error |
| Payments.PaymentsPage.FetchPayments | src/components/Payments.jsx:37-65 | installs the buckets and clears the error, or sets the message and empties both buckets; loading ends false |
| Payments.PaymentsPage.HandleTabChange | src/components/Payments.jsx:70-72 | the tab becomes the new value |
| Users.FetchResult | src/components/Users.jsx:24-40 | users are installed iff the bare call resolves with a truthy `success`, and are the body's `data` |
| Users.Row | src/components/Users.jsx:172-176 | five cells, each the user's property when it is truthy and "N/A" otherwise |
| Users.LengthAboveZero | src/components/Users.jsx:156 | `users.length > 0`: an array's length, an object's `length` property compared with 0, never for numbers and booleans |
| Users.Render | src/components/Users.jsx:45-189 | a spinner iff loading; then the alert iff there is an error; an empty list gives the "No users found" row; a table shows iff no error and a non-empty array of non-null users whose cells React can print, and row i is `Row` of user i |
| Users.ObjectUsers | src/components/Users.jsx:156-157 | an object with a positive `length` throws at `map`; any other object shows the "No users found" row |
| Users.ViewAfterFetch | src/components/Users.jsx:156-189 | a failed fetch shows the alert; a successful one shows one row per printable user, or the "No users found" row, and throws when the body has no `data` or a cell cannot be printed |
| Users.ObjectAddressBreaksTheTable | src/components/Users.jsx:176 | a user whose `address` is an object makes the table throw |
| Users.ErrorOutranksUsers | src/components/Users.jsx:59-65 | once an error is set, the alert hides any users |
| Users.UsersPage.constructor | src/components/Users.jsx:19-21 | no users, loading, no error |
| Users.UsersPage.FetchUsers | src/components/Users.jsx:24-40 | success replaces the users and leaves the error as it was; failure keeps the users and sets the message; loading ends false |
| Services.InitialForm | src/components/Services.jsx:62-73 | nine empty text fields and six empty image slots |
| Services.ResetForm | src/components/Services.jsx:144-150 | the reset holds five empty fields, no `subCategory` and no `images` |
| Services.WithCategory | src/components/Services.jsx:85-91 | the category changes, the sub-category is emptied, and everything else stays |
| Services.WithImage | src/components/Services.jsx:94-104 | a chosen file fills its slot and only that slot; no file changes nothing |
| Services.WithoutImage | src/components/Services.jsx:107-114 | the slot is emptied and the others stay |
| Services.WithField | src/components/Services.jsx:164-170 | one field gets the value and the others stay |
| Services.ClearUndoesChoose | src/components/Services.jsx:94-114 | clearing a slot undoes choosing a file for it |
| Services.CategoryChangeResetsSubCategory | src/components/Services.jsx:85-91 | after a category change the sub-category is empty, and the category is filled iff the new value is non-empty |
| Services.TrimStart | src/components/Services.jsx:182 | leading white space is removed and nothing else |
| Services.ParsesAsNumberAccepts | src/components/Services.jsx:182 | `parseFloat` accepts a leading number and ignores what follows it |
| Services.ParsesAsNumberRejects | src/components/Services.jsx:182 | text that does not start a number is rejected |
| Services.TrimStartSkipsSpaces | src/components/Services.jsx:182 | any run of leading white space is skipped |
| Services.LeadingDigitParses | src/components/Services.jsx:182 | every text whose first character after white space, or after white space and a sign, is a digit is a number |
| Services.NumberStartsWithSignDigitOrPoint | src/components/Services.jsx:182 | every number starts, after white space, with a sign, a digit, a point or `I` |
| Services.MissingMessagesExactly | src/components/Services.jsx:176-180 | each "required" message is reported iff its field is falsy |
| Services.MissingMessagesFrom | src/components/Services.jsx:176-180 | every reported message comes from a failing check |
| Services.MissingMessagesEmpty | src/components/Services.jsx:176-180 | nothing is reported iff every check passes |
| Services.ValidationErrorsExactly | src/components/Services.jsx:173-187 | the list is empty iff the five fields are filled and the price parses; each message is present iff its condition holds |
| Services.Payload | src/components/Services.jsx:123-136 | `name` and `productName` are the form's `productName`; `category`, `price` and `description` are the form's; the one image is the form's `imageUrl`; sub-category, offers, review, rating, availability and duration are the fixed values |
| Services.PayloadReadsResetKeys | src/components/Services.jsx:123-136 | the payload depends only on the five fields the reset keeps |
| Services.SubmitIgnoresValidation | src/components/Services.jsx:116-138 | the untouched form fails all five checks and is posted all the same |
| Services.SubmitOutcome | src/components/Services.jsx:138-158 | the submit fails iff the call is rejected, and creates iff the reply body is truthy |
| Services.ResetBreaksTheForm | src/components/Services.jsx:144-150 | after a successful submit `images` is gone (the image grid at line 368 maps over it), and validation reports the missing sub-category |
| Services.ServiceForm.constructor | src/components/Services.jsx:62-83 | the initial form, not loading, no success, no error |
| Services.ServiceForm.HandleCategoryChange | src/components/Services.jsx:85-91 | the form becomes `WithCategory` |
| Services.ServiceForm.HandleSubCategoryChange | src/components/Services.jsx:263 | the form gets the new sub-category |
| Services.ServiceForm.HandleChange | src/components/Services.jsx:164-170 | the form gets the new field value |
| Services.ServiceForm.HandleSingleImageChange | src/components/Services.jsx:94-104 | copies the slots, writes one, and stores the copy: the form becomes `WithImage` |
| Services.ServiceForm.HandleClearImage | src/components/Services.jsx:107-114 | the form becomes `WithoutImage` |
| Services.ServiceForm.ValidateForm | src/components/Services.jsx:173-187 | returns `ValidationErrors` of the form |
| Services.ServiceForm.HandleSubmit | src/components/Services.jsx:116-162 | sends the payload; on a truthy reply resets the form and sets success; on failure sets the error; loading ends false |
| Services.ServiceForm.DismissSuccess | src/components/Services.jsx:489 | clears success and nothing else |
| Services.ServiceForm.DismissError | src/components/Services.jsx:508 | clears the error and nothing else |
| Js.FilterElements | src/components/Orders.jsx:86-91 | a filter that reads a property throws iff some element is null or undefined, and otherwise returns the kept elements |
| Js.FilterMembership | src/components/AdminProduct.jsx:59 | an element is kept iff it is in the input and passes the test |
| Js.FilterIsSubsequence | src/components/AdminProduct.jsx:59 | the kept elements keep their original order |
| Js.FilterCount | src/components/Payments.jsx:49-52 | a passing element keeps its multiplicity; a failing one is dropped |
| Js.FilterDropsOne | src/components/AdminProduct.jsx:59 | when exactly one element fails the test, only that one is removed |
| Js.FiltersDisjoint | src/components/Payments.jsx:49-52 | two filters whose tests cannot both hold never share an element |
| Text.NatToStringRoundTrip | src/components/Orders.jsx:184-185 | a printed count reads back as the same number |

## Left out

- Floating point: `Number(price)` and `parseFloat` are not computed. The payload carries the price text. Validation only decides whether `parseFloat` finds a number. Numbers in JSON bodies are integers.
- `toLocaleString`, `Date` and the date and amount cells: locale formatting, not logic.
- Timers: the orders screen's `isVisible` fade and the 300 ms delay before a tab change. `Orders.OrdersPage.HandleTabChange` models the state once the timer has fired.
- Choosing the API base URL from `NODE_ENV`, and `console` logging: configuration and diagnostics. The host is the production one.
- Asynchronous interleaving: each handler runs from its start to the settling of its one request, with no other handler between. Stale closures over earlier state are not modelled.
- JSX layout, styling and animation. Only what a screen draws is modelled: spinner, alert, empty state, table, cards, tabs and snackbars.
- `adminAPI.logout`, `adminAPI.verifyToken`, `adminAPI.getUsers`, `getSuccessfulPayments`, `getCancelledPayments`, `getPaymentsByStatus`, `getAllServices`, `getCategories`, `getBaseUrl` and `dashboardAPI`: none of the modelled screens calls them.
- `src/components/Sidebar.jsx`, `Header`, `Dashboard` and `Profile` are not part of this model. The shell only routes to them.
- `src/utils/categories` is not part of this model: the sub-category options are taken as any text.
- `Text.UpperCase` and `Text.LowerCase`: change ASCII letters only. Unicode case mapping is not modelled. The router's path matching folds ASCII case only too, so `App.NormalPath` is exact there.
- `App.NormalPath`: percent-encoded characters in the location are not decoded before matching; a location such as `/%6Frders` is not modelled as reaching the orders screen.
- `Uri.Encode`: Dafny characters are Unicode scalar values, so a lone surrogate cannot be represented. `encodeURIComponent` throws a URIError on one, which `getProductsByCategory` would catch and report; that path is not modelled.
- `Users.LengthAboveZero`: a `length` property compared with 0 is modelled for numbers, booleans and plain digit strings. Strings with white space, a sign, a decimal point or an exponent, and single-element arrays, which JavaScript converts to numbers, are taken as not above zero.
- JavaScript reference equality (`!==` on ids) is modelled as structural equality on JSON values.
- `Api.FormData`: file entries are not modelled, so entries are strings only.
- The create-service screen's `snackbar` state is declared but never read or written.
- The login screen's `catch` block: nothing in its `try` can throw, so it is not modelled.
- `Services.ServiceForm.HandleChange`: requires the field name not to be `images`, because it is wired only to the text inputs.
- `Services.ServiceForm.HandleSingleImageChange` and `Services.ServiceForm.HandleClearImage`: require an existing slot, because their handlers exist only for the six rendered slots. After the post-submit reset no slot is rendered.
- `Users.Render`: a table containing a null user or an unprintable cell is modelled as a throwing render, without modelling which cell throws.
- `Orders.Render` and `Payments.PaymentTable`: a row whose printed cell is an object (for instance `order.status` or `payment._id`) makes React throw; the model still draws the row. Orders never lists a row after a fetch (`Orders.OrdersNeverListed`).
