# Money exchange ledger — a Dafny model

This project models the core of a small money-exchange application: an Express/Sequelize server plus a React client.

The server keeps these tables:
- currencies and customers;
- a company balance row per currency (`MyCurrency`);
- a customer balance row per customer and currency (`CustomerCurrency`);
- transactions, earnings and users.

Every balance row has a cash bucket (`balance`), a cheque bucket (`check_balance`) and a favourite flag (`star`).

The model covers:
- the transaction engine (`createTransaction`, `updateTransaction`, `deleteTransaction` and the listing filter);
- the balance upserts and star toggles of the currency and customer controllers;
- the earning bookkeeping;
- login, first-user registration and initial-setup completion;
- profile reads and updates;
- the bearer-token middleware;
- the client helpers that build what the server receives: the currency list of the first-run setup page, the starred-first sort of the profile page, and the commission preview and percent/fraction conversion of the new-transaction form and the edit dialog.

Structure:
- `Store.Database` is a class with one map field per table and one autoincrement counter per table.
- `Valid()` says three things: keys are below their counters; an earning's `transaction_id` names an existing transaction, and a transaction has at most one such earning; usernames are unique.
- Each controller action is a method on a `Database`. It modifies only the fields the action writes. It states the whole new state, and the error paths leave the database unchanged, as the Sequelize transaction's rollback does.
- Pure rules are functions, with lemmas about them. For example, `Movement.Classify` and `Movement.Effect` give the rule and signed delta a movement string selects. `Balances.Upsert` is find-or-create followed by the "replace if not undefined" merge.

Conventions:
- Money is `real`.
- JavaScript truthiness (`!x`, `x || 0`) and `x !== undefined` are written out: `Common.TruthyText`, `Common.TruthyNumber`, `Common.TruthyInt` and `Common.Given`.
- A request field left out of a body is `None`.
- Timestamps are `int`.

Three behaviours of the code are easy to miss:
- Only movements containing "buy" take the buy branch. The `deposit-*` movements that the client sends contain no "buy", so they take the sale branch, like withdrawals (`Movement.ClientMovementRules`).
- `updateTransaction` and `deleteTransaction` never touch a balance row. No reversal of the original movement is made.
- `"check-collection"` contains "check", so it can record a commission earning. Its balance rule still ignores the commission amount.

## Model

| member | source | states |
|---|---|---|
| Text.FoldCase | server/src/models/User.js:58-59 | the folded text has the same length, no ASCII capital, and every other character in place |
| Text.FoldCaseIdempotent | server/src/models/User.js:58-59 | folding twice is folding once, so a text compares equal to its folding |
| Text.CapitalsMatch | server/src/models/User.js:58-59 | "Admin" and "admin" differ, yet the collation compares them equal |
| Store.SessionOf | server/src/middleware/authMiddleware.js:56-62 | the user fields handed out are id, username, name, role and isInitialSetup, copied from the row |
| Store.Unlink | server/src/controllers/transactionController.js:450-455 | destroying by `transaction_id`: exactly the earnings not linked to the id remain, unchanged |
| Store.Relink | server/src/controllers/transactionController.js:371-379 | every earning linked to the id gets the new amount and currency; all others and the key set are kept |
| Store.Database.FindOrCreateCompany | server/src/controllers/transactionController.js:143-151 | reports whether the row was created; returns the defaults or the stored row; writes only that key |
| Store.Database.FindOrCreateCustomerBalance | server/src/controllers/transactionController.js:156-167 | the same for the (customer, currency) key |
| Store.Database.FindLinkedEarning | server/src/controllers/transactionController.js:364-366 | none exactly when no earning is linked to the transaction; otherwise a linked earning's key |
| Store.Database.InsertCurrency | server/src/controllers/currencyController.js:48 | the next key, fresh, holding the name; the invariant is kept |
| Store.Database.InsertCustomer | server/src/controllers/customerController.js:48 | the next key, fresh, holding the customer; the invariant is kept |
| Store.Database.InsertUser | server/src/controllers/authController.js:102-108 | the next key, fresh, holding the user; usernames stay unique |
| Store.Database.FindUserByName | server/src/controllers/authController.js:29 | none exactly when no user has the username up to ASCII case, as the case-insensitive collation compares it; otherwise that user's key |
| Store.Database.ReplaceUser | server/src/controllers/userController.js:68 | saving a user row keeps the invariant and changes only that key |
| Store.Database.InsertTransaction | server/src/controllers/transactionController.js:107-117 | the next key, fresh, with no earning linked to it yet |
| Store.Database.ReplaceTransaction | server/src/controllers/transactionController.js:350-360 | rewrites one existing transaction and nothing else |
| Store.Database.InsertEarning | server/src/controllers/transactionController.js:125-134 | the next key holding the row; a linked row keeps one earning per transaction |
| Store.Database.RewriteLinkedEarning | server/src/controllers/transactionController.js:371-379 | updating the one linked earning equals `Relink` of the whole table |
| Store.Database.DestroyLinkedEarning | server/src/controllers/transactionController.js:393-396 | destroying the one linked earning equals `Unlink` of the whole table |
| Movement.Effect | server/src/controllers/transactionController.js:174-243 | trades conserve each bucket between company and customer; a collection moves `amount` from company cheque to company cash; cash rules leave cheque buckets alone and cheque rules leave cash buckets alone |
| Movement.SellMirrorsBuy | server/src/controllers/transactionController.js:174-243 | the sale rules are the exact negation of the buy rules |
| Movement.TradeConservesBuckets | server/src/controllers/transactionController.js:174-243 | applying a trade to a company row and a customer row keeps the sum of each bucket |
| Movement.StoredMovementRules | server/src/models/Transaction.js:36-42 | the five stored movement values select buy-cash, buy-check, sell-cash, sell-check and collection |
| Movement.ClientMovementRules | server/src/controllers/transactionController.js:138-141 | withdrawals and deposits alike take the sale branches; "unknown" changes no bucket |
| Movement.CollectionEarnsButIgnoresCommission | server/src/controllers/transactionController.js:204-212 | "check-collection" earns exactly when the rate is positive, yet its delta ignores the commission |
| Movement.CashMovementsEarnNothing | server/src/controllers/transactionController.js:120-122 | no cash movement earns a commission |
| Paging.PageCount | server/src/controllers/transactionController.js:66-70 | `Math.ceil(count / limit)` is the least number of `limit`-row pages that hold the rows; no page count when the limit is not positive |
| Paging.RowOnOnePage | server/src/controllers/transactionController.js:59-61 | with `offset (page - 1) * limit`, every row lies on exactly one page, and that page is within the reported count |
| Paging.OneSidedWindowIgnored | server/src/controllers/transactionController.js:41-45 | with only one date given, the date window filters nothing |
| TransactionController.ApplyMovement | server/src/controllers/transactionController.js:138-243 | both rows are found or created at zero, then shifted by `Effect(Classify(movement))`; no other balance row changes |
| TransactionController.RecordCommission | server/src/controllers/transactionController.js:120-135 | the commission is `amount * rate` when the movement earns, else 0; an earning linked to the transaction exists afterwards exactly when it earns |
| TransactionController.CreateTransaction | server/src/controllers/transactionController.js:85-274 | a missing required field fails and changes nothing. Otherwise the row is stored under the next key, the commission earning exists iff the movement contains "check" and the rate is positive, and both balance rows become `CompanyAfter` and `CustomerAfter` |
| TransactionController.StoreTransaction | server/src/controllers/transactionController.js:106-243 | the writes after validation: the transaction, its earning and the two shifted balance rows |
| TransactionController.SyncCommissionEarning | server/src/controllers/transactionController.js:362-396 | a linked earning exists afterwards exactly when the movement earns: updated if present, created if absent, destroyed otherwise, and it carries the commission amount |
| TransactionController.UpdateTransaction | server/src/controllers/transactionController.js:324-427 | not found: unchanged. Missing movement: an internal error, unchanged. Otherwise the row is rewritten and the earning synced; no balance row changes |
| TransactionController.DeleteTransaction | server/src/controllers/transactionController.js:432-472 | not found: unchanged. Otherwise every linked earning and the transaction are removed; no balance row changes |
| TransactionController.EmptyQueryListsAll | server/src/controllers/transactionController.js:36-45 | a query with every parameter absent or empty, and at most one date, lists every transaction |
| TransactionController.ListedRowsAgree | server/src/controllers/transactionController.js:36-45 | every listed transaction has the given customer and currency, the given movement up to case, and a creation time inside a two-sided date window |
| TransactionController.DroppingParameterWidens | server/src/controllers/transactionController.js:36-45 | leaving out any one parameter never drops a transaction from the listing |
| TransactionController.ZeroCustomerListsNothing | server/src/controllers/transactionController.js:38 | `customerId=0` is non-empty text, so it filters on customer 0 and lists nothing, since keys start at 1 |
| Balances.CreatedRow | server/src/controllers/currencyController.js:136-143 | the created row (a falsy value replaced by 0 or false) equals the merge of the patch into the zero row |
| Balances.Upsert | server/src/controllers/currencyController.js:136-154 | the key is present afterwards with the merged row; every other row is unchanged |
| Balances.UpsertIdempotent | server/src/controllers/currencyController.js:136-154 | applying the same update twice gives the same table as applying it once |
| Balances.CompletePatchOverwrites | server/src/controllers/currencyController.js:145-152 | a patch giving all three fields determines the row regardless of what was stored |
| Balances.EmptyPatchKeeps | server/src/controllers/currencyController.js:145-152 | an empty patch keeps an existing row and creates a zero row for a missing key |
| Balances.FlipStar | server/src/controllers/currencyController.js:197-199 | the star is negated and both balances are kept |
| Balances.FlipStarTwice | server/src/controllers/currencyController.js:197-199 | toggling twice restores the row |
| CurrencyController.CreateCurrency | server/src/controllers/currencyController.js:37-48 | an empty name fails with "Currency name is required" and creates nothing; otherwise one currency is added under the next key |
| CurrencyController.GetCompanyBalance | server/src/controllers/currencyController.js:94-116 | the stored row, or not found "Balance not found for this currency" exactly when there is none |
| CurrencyController.UpdateCompanyBalance | server/src/controllers/currencyController.js:131-178 | the company table becomes `Upsert` of the patch; the answer is the merged row |
| CurrencyController.ToggleCurrencyStar | server/src/controllers/currencyController.js:182-213 | not found "Currency balance not found" and unchanged, or the star flipped with balances kept |
| CustomerController.CreateCustomer | server/src/controllers/customerController.js:37-48 | an empty name fails with "Customer name is required" and creates nothing; otherwise an unstarred customer is added |
| CustomerController.GetCustomerBalance | server/src/controllers/customerController.js:97-123 | the stored (customer, currency) row, or not found exactly when there is none |
| CustomerController.UpdateCustomerBalance | server/src/controllers/customerController.js:137-189 | the customer-balance table becomes `Upsert` at (customer, currency); other pairs are unchanged |
| CustomerController.ToggleCustomerStar | server/src/controllers/customerController.js:194-214 | not found and unchanged, or only that customer's star negated |
| CustomerController.CurrenciesOf | server/src/controllers/customerController.js:251-264 | the included balance rows are exactly the customer's, keyed by currency |
| CustomerController.GetCustomer | server/src/controllers/customerController.js:247-276 | the customer with its balance rows, or not found "Customer not found" exactly when the id is unknown |
| EarningController.EarningDate | server/src/controllers/earningController.js:77-94 | a truthy date is kept; otherwise the current time |
| EarningController.ManualEarning | server/src/controllers/earningController.js:72-97 | the stored earning is unlinked, with type defaulting to "other" and date to now |
| EarningController.CreateEarning | server/src/controllers/earningController.js:72-97 | a falsy amount or currency fails with "Amount and currency are required" and changes nothing; otherwise exactly one earning is added |
| EarningController.MergedEarningIdempotent | server/src/controllers/earningController.js:179-186 | the "replace if not undefined" merge is idempotent, the empty patch keeps the row, and the link is never touched |
| EarningController.UpdateEarning | server/src/controllers/earningController.js:163-210 | not found "Earning record not found" and unchanged, or only that earning merged |
| EarningController.DeleteEarning | server/src/controllers/earningController.js:215-230 | not found and unchanged, or exactly that earning removed |
| EarningController.EmptyEarningQueryListsAll | server/src/controllers/earningController.js:28-36 | a query with every parameter absent or empty, and at most one date, lists every earning |
| EarningController.ListedEarningsAgree | server/src/controllers/earningController.js:28-36 | every listed earning has the given currency, the given type up to case, and a date inside a two-sided window |
| EarningController.CurrencyNarrows | server/src/controllers/earningController.js:30 | adding a currency parameter never adds rows, and keeps only that currency's earnings |
| EarningController.SumAppend | server/src/controllers/earningController.js:335 | the sum of two runs of rows is the sum of their sums |
| EarningController.SumPermutation | server/src/controllers/earningController.js:334-335 | the total does not depend on the order `findAll` returns the rows in |
| EarningController.TotalEarnings | server/src/controllers/earningController.js:332-340 | the loop total is the numeric sum of the amounts, and 0 for no rows |
| EarningController.ReduceAsWritten | server/src/controllers/earningController.js:335 | `reduce` over DECIMAL strings: a number only for no rows, otherwise text starting with "0" |
| EarningController.ReduceConcatenates | server/src/controllers/earningController.js:335 | amounts "12.50" and "3.00" reduce to "012.503.00", while their sum is 15.5 |
| AuthController.Login | server/src/controllers/authController.js:16-64 | missing fields fail first; an unknown username and a wrong password give the same 401 "Invalid credentials"; success exactly when a user has that username up to ASCII case and that password, and it hands out that stored user without the password |
| AuthController.Register | server/src/controllers/authController.js:79-108 | any existing user forbids registration before validation; missing fields fail and create nothing; otherwise the table holds exactly one admin user with isInitialSetup set |
| AuthController.SetupCompleted | server/src/controllers/authController.js:155-157 | clears isInitialSetup and keeps every other field |
| AuthController.SetupCompletedIdempotent | server/src/controllers/authController.js:155-157 | completing twice equals completing once; a completed user is unchanged |
| AuthController.CompleteInitialSetup | server/src/controllers/authController.js:143-160 | not found "User not found" and unchanged, or only that user's flag cleared |
| UserController.ProfileOf | server/src/controllers/userController.js:27-35 | the profile is id, username, name and role, with no password |
| UserController.GetUser | server/src/controllers/userController.js:14-35 | the profile of a known user, or not found exactly when the id is unknown |
| UserController.Patched | server/src/controllers/userController.js:63-66 | username, name and password are replaced only by truthy values; role and isInitialSetup are kept |
| UserController.PatchedIdempotent | server/src/controllers/userController.js:63-66 | applying the same patch twice equals applying it once |
| UserController.UpdateUser | server/src/controllers/userController.js:50-89 | not found: unchanged. A username held by another user, up to ASCII case, fails with "Username already exists" and nothing is saved. Otherwise the patched row is saved and its profile returned |
| UserController.CapitalizedRenameTaken | server/src/models/User.js:22-26 | renaming a user to "ADMIN" while another user is "admin" hits the unique index |
| UserController.KeptUsernameNeverClashes | server/src/controllers/userController.js:64 | a patch without a username can never hit the unique constraint |
| UserController.SetupFlagIgnored | server/src/controllers/userController.js:52-68 | a body holding only `isInitialSetup` saves the user unchanged, so a pending setup flag stays set |
| AuthMiddleware.BearerTokenIsNextField | server/src/middleware/authMiddleware.js:30 | `split(" ")[1]` of a "Bearer " header is the text after the prefix up to the next space; it is empty exactly for "Bearer " or a second space |
| AuthMiddleware.BearerTokenRoundTrip | server/src/middleware/authMiddleware.js:22-30 | a header built as "Bearer " plus a space-free token yields that token |
| AuthMiddleware.VerifyError | server/src/middleware/authMiddleware.js:65-82 | JsonWebTokenError and TokenExpiredError are 401 with their messages; every other error is a 500 |
| AuthMiddleware.PresentedToken | server/src/middleware/authMiddleware.js:20-37 | no token exactly when the header is missing, lacks the prefix, or yields an empty token |
| AuthMiddleware.Authenticate | server/src/middleware/authMiddleware.js:17-84 | no token: 401. Next is called exactly when the token verifies to a known user id, with that user's session fields. An unknown id gives "User not found or token is invalid."; a rejection is answered by its error name |
| AuthMiddleware.EmptyTokensRefused | server/src/middleware/authMiddleware.js:30-37 | "Bearer " and "Bearer " followed by a space are refused as carrying no token |
| ProfileComplete.AddCurrency | client/src/pages/ProfileComplete.jsx:33-48 | the list is kept as a prefix; an entry is appended exactly for a present value whose code is not listed, and the new entry is unprimary with zero balances |
| ProfileComplete.AddKeepsCodesUnique | client/src/pages/ProfileComplete.jsx:36-37 | adding keeps the codes unique |
| ProfileComplete.RemoveCurrency | client/src/pages/ProfileComplete.jsx:51-53 | the entries kept are exactly those with another code |
| ProfileComplete.RemoveAbsent | client/src/pages/ProfileComplete.jsx:51-53 | removing an unlisted code changes nothing |
| ProfileComplete.RemoveListed | client/src/pages/ProfileComplete.jsx:51-53 | with unique codes, removing entry i's code deletes exactly entry i and keeps the others in order |
| ProfileComplete.RemoveKeepsCodesUnique | client/src/pages/ProfileComplete.jsx:51-53 | removing keeps the codes unique |
| ProfileComplete.MapMatching | client/src/pages/ProfileComplete.jsx:56-84 | the matching entries are transformed, and every other entry is kept in place |
| ProfileComplete.TogglePrimary | client/src/pages/ProfileComplete.jsx:56-62 | only matching entries have isPrimary flipped; codes are kept |
| ProfileComplete.TogglePrimaryTwice | client/src/pages/ProfileComplete.jsx:56-62 | toggling the same code twice restores the list |
| ProfileComplete.SetBalance | client/src/pages/ProfileComplete.jsx:65-73 | matching entries get the typed amount, or 0 for a blank input; others are kept |
| ProfileComplete.SetCheckBalance | client/src/pages/ProfileComplete.jsx:76-84 | the same for the cheque balance |
| ProfileComplete.EditsKeepCodesUnique | client/src/pages/ProfileComplete.jsx:56-84 | toggling and balance edits keep the codes unique |
| ProfileComplete.SubmitRequests | client/src/pages/ProfileComplete.jsx:87-116 | an empty list fails with the "choose at least one currency" message and sends nothing; otherwise one create-and-set request is sent per entry, each with all three balance fields |
| ProfileComplete.SetupBalancesLand | client/src/pages/ProfileComplete.jsx:100-116 | each request's balance update leaves the new company row equal to the entry's balances and primary flag |
| Profile.NameCompareZero | client/src/pages/Profile.jsx:109 | the name order ties exactly on equal names |
| Profile.NameCompareFlip | client/src/pages/Profile.jsx:109 | the name order is antisymmetric |
| Profile.NameCompareTransitive | client/src/pages/Profile.jsx:109 | the name order is transitive |
| Profile.BeforeTotal | client/src/pages/Profile.jsx:106-110 | the comparator orders any two rows one way or the other |
| Profile.BeforeTransitive | client/src/pages/Profile.jsx:106-110 | the comparator's order is transitive |
| Profile.Insert | client/src/pages/Profile.jsx:106-110 | inserting adds exactly the one row to the multiset |
| Profile.InsertSorted | client/src/pages/Profile.jsx:106-110 | inserting into a sorted list keeps it sorted |
| Profile.SortRows | client/src/pages/Profile.jsx:106-110 | the result is sorted and a permutation of the input |
| Profile.SortCurrencies | client/src/pages/Profile.jsx:104-111 | a missing list gives `[]`; otherwise a sorted permutation of the input |
| Profile.StarredFirst | client/src/pages/Profile.jsx:107-109 | every starred row precedes every unstarred one, and rows with equal star status are in name order |
| Profile.BalanceUpdate | client/src/pages/Profile.jsx:91-101 | nothing is sent without a selected currency; otherwise that currency's id with both balances and no star |
| Profile.BalanceUpdateKeepsStar | client/src/pages/Profile.jsx:91-101 | the update sets both balances and keeps the stored star |
| TransactionForm.AmountAfterCommission | client/src/pages/TransactionForm.jsx:83-92 | with a positive amount and percentage, `amount * (1 + percent / 100)`, which exceeds the amount; otherwise the parsed amount, an unreadable input counting as 0 |
| TransactionForm.MovementForRoute | client/src/pages/TransactionForm.jsx:94-100 | the four route types send themselves; any other sends "unknown" |
| TransactionForm.SubmittedCommission | client/src/pages/TransactionForm.jsx:135 | the submitted rate is the percentage divided by 100, a missing one counting as 0 |
| TransactionForm.HiddenFieldEarnsNothing | client/src/pages/TransactionForm.jsx:94-100 | off the cheque routes no earning is recorded and the commission is 0, whatever percentage the hidden field holds |
| TransactionForm.CheckRouteRule | client/src/pages/TransactionForm.jsx:27-52 | both cheque routes send a movement taking the sale-of-cheque rule that contains "check" |
| TransactionForm.PreviewMatchesServer | client/src/pages/TransactionForm.jsx:252-254 | when the preview shows, the server earns, the preview is the amount plus the recorded commission, and it equals the customer's cheque-bucket change |
| TransactionForm.PreviewIsAmountPlusRate | client/src/pages/TransactionForm.jsx:86-89 | the preview is amount plus amount times the rate the percentage stands for |
| EditTransactionModal.DisplayedCommission | client/src/components/EditTransactionModal.jsx:61-70 | the shown percentage is the rate times 100 (0 for 0); read back through the division it is the stored rate again |
| EditTransactionModal.FormOf | client/src/pages/Transactions.jsx:178-194 | the dialog opens on the row's amount, movement, customer and currency, with the rate shown as a percentage |
| EditTransactionModal.SubmittedUpdateAsWritten | client/src/pages/Transactions.jsx:212-216 | the form values are sent unchanged, the percentage included |
| EditTransactionModal.SubmittedUpdate | client/src/pages/TransactionForm.jsx:135 | the percentage is sent divided by 100; all other values unchanged |
| EditTransactionModal.ResaveInflatesRate | client/src/components/EditTransactionModal.jsx:76 | as written, saving the dialog untouched multiplies a non-zero stored rate by 100 |
| EditTransactionModal.ResavedCheckWithdrawal | client/src/components/EditTransactionModal.jsx:61-76 | a 1000 cheque withdrawal at rate 0.05 earns 50; if its untouched resave reached `updateTransaction` as written, its rate would be 5 and its earning 5000 |
| EditTransactionModal.ResaveKeepsRate | client/src/components/EditTransactionModal.jsx:61-70 | with the division, an untouched resave keeps the stored rate, amount, movement and commission |
| EditTransactionModal.OpenedPreviewMatchesRecord | client/src/components/EditTransactionModal.jsx:136-163 | on a cheque movement with a positive amount and rate, the preview on opening is the amount plus the recorded commission |
| EditTransactionModal.CheckMovementEarns | client/src/components/EditTransactionModal.jsx:136-137 | the two movements that show the commission field earn `amount * rate` at a positive rate |

## Left out

- Foreign-key violations (an unknown customer or currency id in a body) are not modelled. The model accepts such ids, where the database would fail with an internal error and roll back.
- DECIMAL(10,2) rounding and JavaScript floating point: money is exact `real`. `parseFloat` of a DECIMAL string is its value. NaN, null and non-numeric strings are not modelled. A truthy amount is a non-zero number.
- The ENUM columns and string-length limits are not enforced by the model. The five-value ENUM of the transaction `movement` column is not checked: any movement string is stored, and the client's `withdrawal-*`/`deposit-*` values are classified as the code would classify them. The earning `type` column is an ENUM of commission, exchange, fee, spread and other (server/src/models/Earning.js:49), but `EarningController.ManualEarning` and `EarningController.MergedEarning` store any text there. That includes `type: ""`, which skips the `"other"` default. The database would refuse such a type with an internal error.
- JWT signing and bcrypt hashing are not modelled. Login compares the stored password with the given one. Token verification is a function parameter of `AuthMiddleware.Authenticate`.
- `localeCompare` collation is replaced by code-point lexicographic order in `Profile.NameCompare`.
- Text.SameText: the tables' `utf8mb4_unicode_ci` collation is modelled as ASCII case folding (`Text.FoldCase`). Accent-insensitive matches, case pairs outside ASCII and the padding of trailing spaces are not modelled, so texts equal only in those ways compare unequal here.
- Store.Database.FindUserByName: compares usernames with `Text.SameText`, so it shares that line's limits.
- AuthController.Login: looks the username up with `Text.SameText`, so a login differing only in accents or trailing spaces fails here and succeeds in the source.
- UserController.UpdateUser: checks the unique index with `Text.SameText`, so a rename clashing only in accents or trailing spaces is saved here and refused in the source.
- TransactionForm.MovementForRoute: the lookup `transactionTypeMap[type]` is modelled as an own-property lookup. A route type naming an inherited object property such as "constructor" gives a truthy entry with no movement in the source, which the server refuses as a missing movement; the model sends "unknown".
- Query parameters are text. An id parameter is modelled as the number it spells, so non-numeric id text, which MySQL would convert before comparing, is not modelled.
- The rows returned by the listing endpoints are left out: `ORDER BY`, the rows of a page and the `include`d associations are database work. The filter (`MatchingIds`, `MatchingEarnings`), the offset and the page count are modelled.
- Endpoints not named above are not modelled: `getAllCurrencies`, `getCompanyBalances`, `getCustomerBalances`, `getCustomersCount`, `getEarningById`, `getEarningsByCurrency`, `getEarningsByType` and `getTransactionStats` are plain reads or SQL aggregates. The adjustment handlers imported by the route files are not defined in the controllers.
- The currency, customer and transaction routers are commented out in `server/src/index.js`; the controllers are modelled as written, regardless of mounting.
- EarningController.TotalEarnings and EarningController.ReduceAsWritten model `getTotalEarnings`, which `server/src/routes/earningRoutes.js` neither imports nor routes. The client's `GET /earnings/total` is answered by the `/:id` route instead.
- ProfileComplete: the setup page is not routed in `client/src/App.jsx`, and its first requests go to the unmounted currency router. Its helpers and requests are modelled as written, although the page does not run as the code is shipped.
- `server/src/routes/transactionRoutes.js` routes neither `updateTransaction` nor `deleteTransaction`, and the client sends the update as `PATCH`. `TransactionController.UpdateTransaction` and `TransactionController.DeleteTransaction` model the handlers as written, although no request reaches them.
- TransactionController.UpdateTransaction: the amount, customer and currency of the body are plain values. The edit dialog always sends them, so an absent one (which Sequelize would skip) is not modelled.
- The early returns inside an open Sequelize transaction (a validation failure or a missing row) leave that transaction open. This resource leak is not modelled; the state is unchanged, as modelled.
- Dates are integer timestamps. `new Date(x)` parsing and invalid dates are not modelled.
- Database errors other than the unique constraint on `username` (connection loss, deadlocks) are not modelled. Those give a 500 and a rollback.
- Concurrency: find-or-create races and lost updates between simultaneous requests are out of scope for this sequential model.
- React rendering, navigation, snackbars, query caching and the `Promise.all` ordering of the setup page's requests are not modelled. `ProfileComplete.SubmitRequests` lists the requests.

## Findings

| source | as written | input that shows it | evidently intended | confidence | as-written member | corrected member |
|---|---|---|---|---|---|---|
| server/src/controllers/earningController.js:335 | `earnings.reduce((sum, e) => sum + e.amount, 0)` adds DECIMAL amounts, which the MySQL driver returns as strings, so `+` concatenates | two earnings of 12.50 and 3.00 give "012.503.00" | the numeric sum 15.5, and 0 for no rows | low, not executed: it depends on the driver returning DECIMAL as strings, which the code's own `parseFloat` calls elsewhere assume. As the code stands the handler is never reached: server/src/routes/earningRoutes.js does not route `getTotalEarnings`, so the client's `GET /earnings/total` (client/src/services/api.js:78) is matched by the `/:id` route (earningRoutes.js:43) and answers not found, and no page calls it | EarningController.ReduceConcatenates | EarningController.TotalEarnings |
| client/src/components/EditTransactionModal.jsx:76 | the dialog shows the stored rate times 100 (lines 61-70), but the submit at client/src/pages/Transactions.jsx:212-216 sends the percentage without dividing by 100 | a cheque withdrawal of 1000 at rate 0.05, saved without changes, would be stored with rate 5 and a commission earning of 5000 instead of 50, if the payload reached `updateTransaction` | divide by 100 before sending, as client/src/pages/TransactionForm.jsx:135 does, so an untouched save keeps the rate | low, not executed: as the code stands the save never arrives, because the dialog's schema requires a `date` the dialog has no field for (client/src/validation/transactionSchema.js:11), the `PATCH` has no route in server/src/routes/transactionRoutes.js, and the transaction router is not mounted (server/src/index.js:73) | EditTransactionModal.ResavedCheckWithdrawal | EditTransactionModal.ResaveKeepsRate |
| client/src/pages/ProfileComplete.jsx:121-123 | the setup page clears the first-run flag by sending `{ isInitialSetup: false }` to `PUT /users/me`, whose handler reads only username, name and password (server/src/controllers/userController.js:52-68) | a user with the flag set who completed the setup page would still have the flag set, if the page reached line 121 | clear the flag, as `completeInitialSetup` (server/src/controllers/authController.js:155-157) does | low, not executed: as the code stands line 121 is never reached, because the page is not routed in client/src/App.jsx (routes at :102-129), its earlier `createCurrency` requests go to the currency router commented out at server/src/index.js:71, so `Promise.all` rejects into the catch at ProfileComplete.jsx:134, and no client code reads `isInitialSetup` | UserController.SetupFlagIgnored | AuthController.CompleteInitialSetup |
