# Connect-First: a verified model of the donation app's core

Connect-First lets a food bank publish its **needs**: items with a cost, a stock quantity, a category and a priority. **Helpers** put needs into a personal **basket** and fund them at checkout. A **manager** (the user `admin`) maintains the catalogue.

This project models the following in Dafny, and proves properties of each:

- the Express back end's controllers for needs, the basket and login;
- the three Mongoose schemas;
- the authentication guards and the two route tables;
- the React client's pure display logic:
  - route protection;
  - the dashboard filters;
  - the login form's checks;
  - the need card's badge and progress bar;
  - the basket page's total and quantity buttons.

## Modules

| module | models |
|---|---|
| `Common` (common.dfy) | optional values and controller replies; `trim`, `toLowerCase`, `includes`, `filter`, `findOne`; string comparison; a sort on a descending key |
| `Models` (models.dfy) | the Need, Basket and Transaction schemas, the user record and the session |
| `Store` (store.dfy) | class `Database`: the needs, basket, transaction and user collections, updated in place by the controllers |
| `NeedController` | `getAllNeeds`, `getNeedById`, `searchNeeds`, `getNeedsByPriority`, `getNeedsByCategory`, `createNeed`, `updateNeed`, `deleteNeed` |
| `BasketController` | `getBasket`, `addToBasket`, `updateBasketItem`, `removeFromBasket`, `checkout` |
| `AuthController` | `login`, `logout`, `getCurrentUser` |
| `AuthMiddleware` | `authMiddleware`, `managerOnly`, `helperOnly` |
| `ApiRoutes` | the needs and basket routers: first matching route, then its guard chain |
| `HelperDashboard`, `LoginPage`, `ClientRoutes`, `NeedCard`, `BasketPage` | the client's pure logic |

### The shape of the model

- The controllers are methods over one `Database` object.
  - Each method states its reply: the status code and the exact message.
  - Each method states the whole new state, and keeps `Valid()`. `Valid()` holds every schema constraint and both unique indexes of the basket collection.
- Checkout has three parts:
  - a validation pass (`Validate`), specified by the function `ValidationFailure`;
  - a commit pass (`CommitPass`), proved against the functions `Commit` and `Ledger`;
  - clearing the caller's basket.
  The last two make up the method `Fund`.
- Quantities and costs are reals, as JSON numbers are. A fraction such as 0.5 passes the controllers' request checks. What happens to it is described under "## Findings".
- White space is the set that JavaScript's `trim` strips: the ECMAScript white-space characters (tab, vertical tab, form feed, space, no-break space, U+FEFF and every Unicode space separator) and the line terminators.
- The session is a value: `Anonymous` or `SignedIn(user)`.
  - Login takes the old session and returns the new one.
  - The guards are functions of the session.

### Where the model follows the code

Where the documentation and the code disagree, the model follows the code:

- **Funding progress.** The need card (frontend/src/components/NeedCard.js:77-83) uses the fields `amountRaised`, `amountLeft`, `totalGoal` and `progressPercentage` when the need carries them.
  - No controller sends any of them. The need replies hold only the schema fields and timestamps.
  - So the card falls back to nothing raised, with cost × quantity left.
  - Every card the API feeds therefore shows 0 % (`NeedCard.StoredNeedShowsNoProgress`).
- **Login.** Login reads no password. The role depends on the username alone: exactly `admin` is a manager.
- **Failed updates.** `updateNeed` runs the schema validators before it looks the need up. An invalid body for a missing id is therefore a 500, not a 404.
- **Deleted needs.**
  - Deleting a need leaves basket entries that refer to it.
  - `getBasket`, `updateBasketItem` and `checkout` then dereference null and answer 500.
- **Address and location.** `address`, `latitude` and `longitude` are read from the body of create and update, but they are not schema fields, so they are dropped.

## Model

| member | source | states |
|---|---|---|
| Common.TrimEmptyIffBlank | backend/controllers/authController.js:7 | `s.trim() === ''` holds exactly when every character of `s` is white space |
| Common.TrimmedIffFixed | backend/models/Need.js:4-8 | a string has no white space at either end exactly when trimming leaves it unchanged, and the result of trimming always has none |
| Common.TrimIdempotent | backend/models/Need.js:4-8 | trimming an already trimmed name changes nothing, so a stored name is in the schema's normal form |
| Common.Filter | frontend/src/pages/HelperDashboard.js:37-48 | `filter` returns, in their original order, exactly the elements that meet the predicate |
| Common.IndexWhere | backend/controllers/basketController.js:73 | `findOne` yields the first entry that matches, and nothing only when no entry matches |
| Common.SortDesc | backend/controllers/needController.js:5-6 | a database sort on a descending key returns the same documents, in descending key order |
| Models.ValidNeed | backend/models/Need.js:4-44 | a need that meets the schema never has a blank name |
| Models.CastNeed | backend/models/Need.js:4-44 | creating a need succeeds exactly when the name is non-blank, cost and quantity are present and ≥ 0, and category and priority (defaults Other and Medium) are in their enums; the stored need has the trimmed name, the defaults, no deadline and frequency 0 |
| Store.Database.SaveNewNeed | backend/controllers/needController.js:164-175 | storing a valid need under the next id keeps every collection's constraints, adds exactly that need, and changes no other collection |
| Store.Database.SaveLogin | backend/controllers/authController.js:13-20 | the user's record is created with the given role on the first login and has its last-login time refreshed after that; nothing else changes |
| Store.Database.FindAllNeeds | backend/controllers/needController.js:5 | `Need.find()` yields every stored need exactly once |
| NeedController.Compare | backend/controllers/needController.js:96-104 | the comparator is 0 exactly when priority rank, time sensitivity and frequency count all agree, and negative exactly when `a` has the higher rank, or the same rank and is time-sensitive where `b` is not, or both of those equal and the higher frequency count |
| NeedController.InOrderTotalPreorder | backend/controllers/needController.js:96-104 | the priority comparator is total, sign-antisymmetric and transitive, so sorting by it is well defined |
| NeedController.SortByPriority | backend/controllers/needController.js:96-104 | the sort returns a permutation of the needs, ordered by the comparator |
| NeedController.PriorityOrder | backend/controllers/needController.js:93-104 | in the ranking High precedes Medium, which precedes Low; within a priority, time-sensitive needs come first; within both, higher frequency counts come first |
| NeedController.GetNeedsByPriority | backend/controllers/needController.js:91-125 | the reply is 200 with every stored need exactly once, in priority order |
| NeedController.StringRankIsStringOrder | backend/controllers/needController.js:6 | on the three schema priorities, the string comparison the database sorts by orders them High < Low < Medium |
| NeedController.HighListedLastAsWritten | backend/controllers/needController.js:6 | in the order as written, every High need is listed after every Medium and Low need |
| NeedController.HighAfterLowAsWritten | backend/controllers/needController.js:6 | in the order as written, a time-sensitive High need and a Low need come back with the Low one first |
| NeedController.ListOrderRanks | backend/controllers/needController.js:6 | the corrected list order puts High before Medium before Low, and time-sensitive needs first within a priority |
| NeedController.GetAllNeeds | backend/controllers/needController.js:3-28 | the reply is 200 with every stored need exactly once, in the corrected list order |
| NeedController.GetNeedById | backend/controllers/needController.js:30-54 | the reply is 200 with the stored need, or 404 "Need not found" when there is none |
| NeedController.SearchNeeds | backend/controllers/needController.js:56-89 | a missing or empty `q` gets 400; otherwise the reply is exactly the stored needs whose name or description contains `q` (ignoring case), each once, in the list order |
| NeedController.GetNeedsByCategory | backend/controllers/needController.js:127-152 | the reply is exactly the stored needs of that category, each once, in the list order |
| NeedController.CreateDocAccepted | backend/controllers/needController.js:164-175 | past the truthiness check, the schema refuses the document exactly when the name is blank, cost or quantity is negative, or category or priority is outside its enum |
| NeedController.CreateNeed | backend/controllers/needController.js:154-197 | a falsy name, cost or quantity gets 400, a schema failure 500 (nothing stored in either case); otherwise 201, with one new need under a fresh id, holding the trimmed name and the `||` defaults |
| NeedController.ApplyUpdate | backend/controllers/needController.js:206-221 | an update keeps the id, deadline and frequency count, stores the trimmed name and the provided cost and quantity, and an empty body changes nothing |
| NeedController.UpdateKeepsValid | backend/controllers/needController.js:206-221 | an update whose provided fields pass the validators keeps the need valid, and keeps its id, deadline and frequency count |
| NeedController.UpdateNeed | backend/controllers/needController.js:199-247 | an invalid field gets 500 before the lookup; an unknown id gets 404; a valid body for a stored need gets 200, the provided fields replace the stored ones and nothing else changes |
| NeedController.DeleteNeed | backend/controllers/needController.js:249-263 | an unknown id gets 404 and no change; otherwise the need, and only the need, is removed (basket entries and transactions stay) |
| BasketController.WithoutKeepsOthers | backend/controllers/basketController.js:150 | clearing one user's basket leaves every other user's basket exactly as it was |
| BasketController.WithoutClearsOwn | backend/controllers/basketController.js:150 | after the clear, the user has no basket items left |
| BasketController.OwnItemsDistinctNeeds | backend/models/Basket.js:23 | under the unique (username, needId) index, one user's items name pairwise different needs |
| BasketController.OthersUnchangedByUpdate | backend/controllers/basketController.js:50-54 | replacing, appending or removing one of a user's entries leaves every other user's items unchanged |
| BasketController.GetBasket | backend/controllers/basketController.js:5-29 | the reply lists exactly the caller's items, in stored order, each joined with its need; it is 500 exactly when one of those needs no longer exists |
| BasketController.OnlyOwnLines | backend/controllers/basketController.js:9 | every line of a user's basket reply is one of that user's own entries |
| BasketController.ForeignItemNotFound | backend/controllers/basketController.js:73 | an item that exists but belongs to another user is not found |
| BasketController.UpsertKeepsBasketOk | backend/controllers/basketController.js:50-54 | the upsert keeps the Basket schema and both unique indexes, and leaves the user exactly one entry for the need, holding the new quantity |
| BasketController.UpsertKeepsOthers | backend/controllers/basketController.js:50-54 | the upsert leaves every other user's entries as they were |
| BasketController.AddToBasket | backend/controllers/basketController.js:31-61 | 400 for a missing need id or a quantity that is not positive; 404 for an unknown need; 400 above stock; 500 for a quantity below 1, which the Basket schema refuses; otherwise 201, and after the upsert on (username, needId) the user holds exactly one entry for the need, with that quantity; an error changes nothing, and other users' baskets never change |
| BasketController.UpdateBasketItem | backend/controllers/basketController.js:63-90 | 400 for a bad quantity; 404 when the item is not the caller's; 500 when its need is gone; 400 above stock; 500 for a quantity below 1, which the Basket schema refuses; otherwise 200 and only that entry's quantity changes |
| BasketController.RemoveFromBasket | backend/controllers/basketController.js:92-108 | 404 when the item is not the caller's; otherwise exactly that entry is removed |
| BasketController.ValidationFailure | backend/controllers/basketController.js:121-127 | the validation pass fails exactly when some item's need is missing or below the item's quantity; the first such item decides the reply: 500 "Checkout failed" when its need is missing, otherwise 400 "Insufficient quantity for " and the need's name |
| BasketController.Commit | backend/controllers/basketController.js:130-137 | the commit pass keeps the set of needs, and changes only their stock and frequency count |
| BasketController.Ledger | backend/controllers/basketController.js:139-146 | the commit pass creates one transaction per item |
| BasketController.LedgerEntry | backend/controllers/basketController.js:139-146 | the i-th transaction records the i-th item: the user, the need, the quantity, and the cost at load time times the quantity |
| BasketController.NoOverdraw | backend/controllers/basketController.js:130-137 | with the unique index and every item validated, the total debited from a need never exceeds its stock |
| BasketController.OverdrawWithoutUniqueIndex | backend/controllers/basketController.js:121-137 | without the unique index, two entries of 3 against a stock of 5 would both pass validation and take 6 |
| BasketController.CommitKeepsNeedsOk | backend/controllers/basketController.js:130-137 | the commit pass keeps every need's quantity ≥ 0, as the Need schema requires |
| BasketController.LedgerOkAppend | backend/models/Transaction.js:4-22 | every transaction that checkout appends meets the Transaction schema |
| BasketController.WithoutKeepsBasketOk | backend/controllers/basketController.js:150 | clearing a user's basket keeps the basket schema and both unique indexes |
| BasketController.CheckoutKeepsValid | backend/controllers/basketController.js:110-157 | a successful checkout leaves every collection meeting its schema and indexes |
| BasketController.Validate | backend/controllers/basketController.js:121-127 | the loop returns the reply of the first failing item, or nothing when all pass, without writing |
| BasketController.CommitPass | backend/controllers/basketController.js:130-147 | the loop leaves each need debited by its items' total quantity and its frequency raised by their count, and appends one transaction per item |
| BasketController.Fund | backend/controllers/basketController.js:129-150 | once every item has passed validation, the needs become the commit, the ledger is appended, the caller's basket is cleared, and every collection keeps its constraints |
| BasketController.Checkout | backend/controllers/basketController.js:110-157 | an empty basket gets 400; a failed validation returns its reply and writes nothing; otherwise 200 with the item count, the commit, the ledger, and only the caller's basket cleared |
| AuthController.RoleFor | backend/controllers/authController.js:11 | the role is `manager` exactly for the username `admin`, and `helper` otherwise |
| AuthController.CapitalisedAdminIsHelper | backend/controllers/authController.js:11 | the comparison is case-sensitive: `Admin` is a helper |
| AuthController.Login | backend/controllers/authController.js:3-32 | a missing or blank username gets 400 and changes nothing; otherwise the session holds the user and role, and the user record is created or has its last-login refreshed |
| AuthController.LoginKeepsOneRecord | backend/controllers/authController.js:14-20 | logging in again adds no record and keeps the stored role |
| AuthController.Logout | backend/controllers/authController.js:34-41 | after logout the session reads as not authenticated |
| AuthController.GetCurrentUser | backend/controllers/authController.js:43-49 | 200 with the session's user exactly when signed in, otherwise 401 "Not authenticated" |
| AuthMiddleware.Authenticate | backend/middleware/authMiddleware.js:1-6 | passes exactly the signed-in sessions; otherwise 401 |
| AuthMiddleware.ManagerOnly | backend/middleware/authMiddleware.js:8-13 | passes exactly the sessions with role `manager`; otherwise 403 |
| AuthMiddleware.HelperOnly | backend/middleware/authMiddleware.js:15-20 | passes exactly the sessions with role `helper`; otherwise 403 |
| AuthMiddleware.RoleGuardsExclusive | backend/middleware/authMiddleware.js:8-20 | no session passes both role guards, an anonymous one passes neither, and passing either implies being authenticated |
| ApiRoutes.RunGuards | backend/routes/needRoutes.js:15-22 | a guard chain lets a request through exactly when every guard does; otherwise it answers with the first refusal |
| ApiRoutes.Dispatch | backend/routes/needRoutes.js:15-22 | a request reaches a handler only through a matching route whose guards all pass; there is no route exactly when none matches |
| ApiRoutes.NeedRouteGuards | backend/routes/needRoutes.js:15-22 | the need reads are guarded by authentication alone, and the writes (exactly the non-GET routes) by authentication and then the manager check |
| ApiRoutes.BasketRouteGuards | backend/routes/basketRoutes.js:12-16 | every basket route is guarded by authentication and then the helper check |
| ApiRoutes.NeedReadsOpenToSignedIn | backend/routes/needRoutes.js:15-19 | any signed-in user, of either role, can read needs |
| ApiRoutes.OnlyManagersChangeNeeds | backend/routes/needRoutes.js:20-22 | create, update and delete are reached only with a manager's session |
| ApiRoutes.NeedWritesRefused | backend/routes/needRoutes.js:20-22 | on the write routes an anonymous caller gets 401 and a helper gets 403 |
| ApiRoutes.NamedPathsNotIds | backend/routes/needRoutes.js:16-19 | `/search`, `/priority` and `/category/:c` are matched before `/:id` |
| ApiRoutes.GetNeedByIdPaths | backend/routes/needRoutes.js:19 | `GET /:id` is reached only for a single segment that is neither `search` nor `priority` |
| ApiRoutes.BasketRefusals | backend/routes/basketRoutes.js:12-16 | every basket route gives an anonymous caller 401 and a manager 403, and lets a helper through |
| ApiRoutes.CheckoutOnlyByPost | backend/routes/basketRoutes.js:14-16 | checkout is reached only by `POST /checkout` |
| ApiRoutes.LoginRoleDecidesAccess | backend/controllers/authController.js:11 | a session from logging in as `u` may change needs exactly when `u` is `admin`, and may use the basket exactly when it is not |
| HelperDashboard.FilterNeeds | frontend/src/pages/HelperDashboard.js:33-52 | the list shown is never longer than the fetched one, and every need in it was fetched and meets every active control |
| HelperDashboard.FilterNeedsIsOneFilter | frontend/src/pages/HelperDashboard.js:33-52 | the three filters in a row are a single filter by the combined condition |
| HelperDashboard.FilterNeedsSpec | frontend/src/pages/HelperDashboard.js:33-52 | the dashboard lists, in order, every copy of each need that meets all active controls, and nothing else |
| HelperDashboard.NoFilterKeepsAll | frontend/src/pages/HelperDashboard.js:36-49 | with no search and both filters on "All", the list is shown as fetched |
| HelperDashboard.AddRequestFor | frontend/src/pages/HelperDashboard.js:56 | adding to the basket requests one unit of the chosen need |
| HelperDashboard.AddRequestWellFormed | frontend/src/pages/HelperDashboard.js:56 | that request always passes the controller's request check, and exceeds the stock exactly when less than one unit is left |
| LoginPage.ValidationError | frontend/src/pages/Login.js:20-39 | the form is accepted exactly when the username is non-blank, the password is non-empty and, when registering, the password is at least 6 long and matches the confirmation |
| LoginPage.BlankUsernameReportedFirst | frontend/src/pages/Login.js:20-23 | a blank username is reported first, whatever else is wrong |
| LoginPage.EmptyPasswordReported | frontend/src/pages/Login.js:25-28 | with a non-blank username and an empty password, the message is "Password is required", in either mode |
| LoginPage.ShortPasswordBeforeMismatch | frontend/src/pages/Login.js:30-38 | a short password is reported before a mismatched confirmation |
| LoginPage.MismatchReported | frontend/src/pages/Login.js:35-38 | when registering with a password of at least 6 characters that differs from the confirmation, the message is "Passwords do not match" |
| LoginPage.SignInSkipsRegisterChecks | frontend/src/pages/Login.js:30-39 | signing in checks neither the length nor the confirmation |
| LoginPage.HandleSubmit | frontend/src/pages/Login.js:16-53 | a failed check shows its message and sends nothing; otherwise the form goes into loading and, when registering, sends a registration request with the form's username and password first, then always a sign-in request with the same two; it sends exactly one or two requests |
| LoginPage.ToggleMode | frontend/src/pages/Login.js:55-60 | switching mode flips it, clears the error and both passwords, and keeps the username |
| LoginPage.ToggleThenSubmit | frontend/src/pages/Login.js:55-60 | submitting right after a switch asks for the password again |
| ClientRoutes.ProtectedRoute | frontend/src/App.js:11-27 | the loading view while loading; the login page when signed out; home when the required role differs; otherwise the child |
| ClientRoutes.Dashboard | frontend/src/App.js:29-35 | the manager view exactly for role `manager`, and the helper view for any other role |
| ClientRoutes.Navigate | frontend/src/App.js:44-62 | the login form is shown exactly on `/login`; any other page is shown only to a signed-in user once auth has loaded; the loading view appears only while auth loads |
| ClientRoutes.BasketPageOnlyForHelpers | frontend/src/App.js:54-61 | the basket page is shown exactly to the signed-in users the server's basket routes admit |
| ClientRoutes.ManagerViewOnlyForManagers | frontend/src/App.js:46-53 | the manager view is shown exactly to the signed-in users the server lets change needs |
| ClientRoutes.LoadingAndUnknownPaths | frontend/src/App.js:45-62 | while auth loads, the protected pages show the loading view; an unknown path goes home; a signed-out user is redirected everywhere except `/login` |
| NeedCard.PriorityClass | frontend/src/components/NeedCard.js:17-24 | each priority gets its badge class, and an unknown priority gets none |
| NeedCard.PriorityClassOfStoredNeed | frontend/src/components/NeedCard.js:17-24 | every stored need gets a badge class, and distinct priorities get distinct classes |
| NeedCard.BarWidth | frontend/src/components/NeedCard.js:96 | the bar width is the percentage clamped to [0, 100] |
| NeedCard.ProgressOf | frontend/src/components/NeedCard.js:76-86 | the progress block is drawn exactly when cost is non-zero and quantity is present, with a width in [0, 100] |
| NeedCard.FallbackPercentageInRange | frontend/src/components/NeedCard.js:78-83 | with only raised and left supplied, both non-negative, the goal is their sum and the percentage is already in [0, 100] |
| NeedCard.StoredNeedShowsNoProgress | frontend/src/components/NeedCard.js:78-86 | for a need as the API returns it, the block appears exactly when cost is non-zero, its goal is the stock's value, and it reads 0 % |
| BasketPage.CalculateTotal | frontend/src/pages/Basket.js:63-65 | the displayed total, a fold from 0, is the sum of the line costs, and 0 for an empty basket |
| BasketPage.CheckoutChargesDisplayedTotal | frontend/src/pages/Basket.js:63-65 | the transactions of a checkout add up to the total the page showed for the same basket |
| BasketPage.HandleUpdateQuantity | frontend/src/pages/Basket.js:26-36 | nothing is sent for a quantity below 1; otherwise the update for that item |
| BasketPage.QuantityButtons | frontend/src/pages/Basket.js:95-97 | "−" at quantity 1 sends nothing, "+" asks for one more, and whatever is sent passes the controller's request check |

## Findings

| source | as written | input that shows it | evidently intended | confidence | as-written member | corrected member |
|---|---|---|---|---|---|---|
| backend/controllers/basketController.js:50-54 | the upsert runs no schema validators, so a quantity of 0.5 that passes the request check at line 36 is stored, although the Basket schema asks for at least 1; at checkout each item's `$inc` runs before `Transaction.create`, whose schema also asks for at least 1, so the request ends in 500 with the stock debited and the basket not cleared | add half a blanket, then check out twice: each checkout answers 500 "Checkout failed", records no transaction, and takes another 0.5 from the stock | a quantity below 1 refused before anything is written, as `save` in updateBasketItem already does | high; not executed | BasketController.FractionalQuantityAsWritten | BasketController.AddToBasket |
| backend/controllers/needController.js:6 | `getAllNeeds` sorts with `{ priority: -1 }`, which compares the priority strings, so the order is Medium, Low, High (`searchNeeds` at line 68 and `getNeedsByCategory` at line 131 do the same) | a time-sensitive High need and a Low need: the Low one is listed first | High first, then Medium, then Low, the ranking that getNeedsByPriority applies | medium; not executed | NeedController.HighAfterLowAsWritten | NeedController.ListOrderRanks |

The members `CommitAsWritten`, `CommitAsWrittenStops` and `CheckoutAsWritten` model checkout as written, with the transaction schema enforced and the basket unvalidated. The corrected `AddToBasket` and `UpdateBasketItem` refuse a quantity below 1 with the controllers' 500 reply. So under the rest of the model every stored basket entry holds at least 1, and checkout writes nothing when it fails.

In the order as written, every High need comes after every Medium and Low need (`NeedController.HighListedLastAsWritten`). The list controllers in the model use the corrected order (`NeedController.ListOrder`).

## Left out

- NeedController.GetAllNeeds: the final `createdAt: -1` tie-break is not modelled. Needs with equal priority and time-sensitivity keep the order in which the collection yields them, and that order is unspecified.
- NeedController.SearchNeeds: the query is matched as a literal, case-insensitive substring. MongoDB would read it as a regular expression.
- NeedController.GetAllNeeds, NeedController.SearchNeeds, NeedController.GetNeedsByCategory, NeedController.GetNeedsByPriority: the replies are the need records, not the snake_case projection with timestamps the controllers build.
- Creation and update timestamps (`createdAt`, `updatedAt`, `transactionDate`) and login times are opaque values passed in by the caller. Clocks are outside the model.
- Case-insensitive matching folds only the ASCII letters. Full Unicode case mapping is out of scope.
- Malformed ids are left out, because ids are natural numbers in the model. In the source a string that is not an ObjectId makes Mongoose throw a cast error, which ends in 500. Two examples: `GET /needs/abc` (backend/controllers/needController.js:50-52), and `POST /basket` with `need_id` "abc" (backend/controllers/basketController.js:40 and 58-60), which gets 500 rather than 404.
- NeedController.ApplyUpdate, NeedController.UpdateNeed: the update object at backend/controllers/needController.js:206-219 always names every field, with `undefined` for those missing from the body. The model assumes Mongoose drops the `undefined` keys, as Mongoose 7 and later do, so an absent field stays as it was and skips its validator. The repository does not pin the Mongoose version. If an older version passed `undefined` on to the validators or to the stored document, a partial update could end in 500 or clear fields, and the model does not cover that.
- The remaining `catch` paths are left out. They are 500 replies caused by database or network failures, and the model has no such failures.
- Concurrency is left out. In particular, stock can change between checkout's validation pass and its commit pass. Requests are modelled one at a time.
- A `username` in the login body that is not a string (`trim` would throw, giving 500) is not modelled.
- AuthController.Logout: the error from destroying the session is not modelled. The session store is outside the model.
- AuthController.Login: the controller calls `User.findOne`, `User.create` and `save`. But backend/models/User.js exports only `findByUsername`, `create`, `updateLastLogin` and `comparePassword`, with no `findOne` and no `save`. Its `create` also hashes a password, and login never passes one. So login as written answers 500 "Login failed". The model describes the intended find-or-create instead, on an in-memory map from username to record.
- Sessions are values passed in and returned. Cookies and the session store are outside the model.
- Prices are exact reals. JavaScript floating-point rounding and `toFixed(2)` formatting are not modelled.
- Password length is counted in characters, not UTF-16 code units.
- Trailing slashes, case-insensitive routing and URL decoding are not modelled, either in Express or in react-router.
- The client's network calls, timers, messages and rendering are not modelled, apart from the decisions listed in the table.
- The need card reads `isTimeSensitive` and `frequencyCount`, but the API sends `is_time_sensitive` and `frequency_count`. Those two badges are rendering, and are not modelled.
- The manager dashboard, the map, the navigation bar and `server.js` are not part of this model. The routers are modelled relative to their mount points.
- BasketController.Ledger: its own contract states only the length. The content of each entry is stated by `BasketController.LedgerEntry`.
- BasketController.Commit: its own contract states only what stays the same. The amounts debited are stated by `BasketController.CommitPass` and `BasketController.NoOverdraw`.
