# Personal finance tracker — a Dafny model

This project models the core of a personal finance tracker. A Go REST server
keeps each user's income and expense transactions and the shared category list
in a document database, and behind Firebase sign-in it lists, creates, updates
and deletes them and computes a per-user summary. A React Native client loads
those lists into a small state hook, shows them newest first, and submits new
transactions from a form.

The model is split by side and by file of the program:

- `base.dfy` (`Base`) holds shared building blocks:
  - `Option` and `Result`;
  - string prefixes;
  - splitting on one character, which Go's `strings.Split` and JavaScript's `split` both do;
  - an order-keeping `Filter` with its lemmas.
- `js_value.dfy` (`JsValue`) models JavaScript values:
  - truthiness;
  - property reads;
  - the `JSON.stringify` text of a value, with the order in which it lists object keys.
- `helpers.dfy` (`Helpers`) models `getRecordId` and `formatDateForInput`.
- `records.dfy` and `client_types.dfy` hold the shapes both sides exchange, and the client's records.
- `use_api.dfy` (`UseApi`) models the data hook as a class:
  - its five state cells;
  - a log of the requests it sends;
  - `fetchData` split at its await into `BeginFetch` and `FinishFetch`;
  - `createTransaction` and `deleteTransaction`, which reload only on an ok reply.
- `add_screen.dfy` (`AddScreen`) models the add form as a class:
  - the category filter;
  - the default-category effect;
  - form validation;
  - the submit handler around the awaited create call.
- `home_screen.dfy` (`HomeScreen`) models the home screen:
  - the stable newest-first sort on a copy;
  - the summary fallbacks;
  - the row key.
- `transaction_item.dfy` (`TransactionItem`) models one list row:
  - the category lookup by name;
  - the icon, sign and description fallbacks;
  - the id passed to delete.
- `auth.dfy` (`Auth`) models authentication:
  - `Authorization: Bearer <token>` parsing;
  - claim extraction;
  - the request context as a class;
  - both middlewares and `GetCurrentUser`.
- `server.dfy` (`Server`) models the handlers over tables held as sequences:
  - record-id prefixing;
  - the create checks;
  - delete and the five-field update merge;
  - the per-user list, computed by a loop;
  - the summary, computed by a loop and proved against a fold, with lemmas on its totals and per-category map.
- `users.dfy` (`Users`) models `GetOrCreateUser` over a user table class:
  - it keeps uids and keys unique;
  - it logs the queries it sends;
  - it is described by a step function `LoginOf` with lemmas.
- `end_to_end.dfy` (`EndToEnd`) states properties that need both sides:
  - how a record identifier travels from the server's JSON, through `getRecordId`, back to the record it names;
  - that every form the client accepts passes the server's checks;
  - that after a reload the client holds exactly the caller's stored transactions.

Inputs that come from outside the program are parameters:

- parsed numbers and dates;
- token verification;
- the current time;
- the key a new record gets;
- whether each database call fails, and its error text.

A database write is returned as the table it leaves.

Facts about the program that the lemmas make explicit:

- `updateTransaction` and `deleteTransaction` never look at the caller. A delete
  or update by any signed-in user reaches any user's record
  (`Server.DeleteReachesEveryOwner`).
- `updateTransaction` checks neither kind nor amount, although
  `createTransaction` does (`Server.UpdateTransaction`).
- The summary counts every kind other than `income` as an expense.
- The client's `fetch` calls send no `Authorization` header. The protected
  reads therefore answer 401; the client keeps its previous transactions and
  summary (`EndToEnd.UnsignedReadsKeepOldState`), while the public category
  list is still loaded.
- A user with no transactions gets a JSON `null` list, because a Go nil slice
  encodes as `null`. The client turns that into an empty list.
- The server has `updateTransaction`, which merges five fields into a stored
  record (`Server.UpdateTransaction`).
- The client's three reads are independent only for not-ok replies
  (`UseApi.FailedCategoriesKeepOthers`). A rejected fetch rejects the joint
  await before any setter runs, and an ok body that fails to parse stops the
  setters after it (`UseApi.ThrowKeepsAll`, `UseApi.MalformedStopsLater`).
- `getRecordId` falls back to `JSON.stringify`, which writes array-index keys
  such as `"0"` before the other keys (`JsValue.ShownMembers`,
  `Helpers.NormalizeIdIndexKeyFirst`).

## Model

| member | source | states |
|---|---|---|
| Base.Split | backend/auth.go:63 | splitting gives at least one part, even for the empty text |
| Base.SplitCount | backend/auth.go:63 | n separators give n + 1 parts |
| Base.SplitPartsAvoidSeparator | backend/auth.go:63 | no part contains the separator |
| Base.SplitJoin | backend/auth.go:63 | the parts joined with the separator give back the text |
| JsValue.MemberOrder | mobile/src/utils/helpers.ts:14 | the members `JSON.stringify` visits are exactly the object's members, each as often |
| JsValue.IndexKeysFirst | mobile/src/utils/helpers.ts:14 | array-index keys come before all other keys, in ascending numeric order |
| JsValue.OtherKeysInInsertionOrder | mobile/src/utils/helpers.ts:14 | the keys that are not array indices keep their insertion order |
| JsValue.Stringify | mobile/src/utils/helpers.ts:14 | `JSON.stringify` gives no text exactly for `undefined` |
| JsValue.ShownMembers | mobile/src/utils/helpers.ts:14 | an object's text is its `Shown` members' `"key":value` texts joined by commas; those members are exactly the ones with a defined value, each as often as bound; array-index keys come first in ascending order; the other keys follow in insertion order |
| JsValue.StringifyIndexKeyFirst | mobile/src/utils/helpers.ts:14 | an object built as `{b: x, 0: y}` is written `{"0":y,"b":x}` |
| Helpers.NormalizeId | mobile/src/utils/helpers.ts:11-15 | a string id is returned unchanged; an object with a truthy `ID` gives that `ID`; any other defined id gives its `JSON.stringify` text (for an object, starting with `{`); `null` gives `"null"`; the result is a string unless the id is `undefined` or an object whose truthy `ID` is not a string |
| Helpers.NormalizeIdIndexKeyFirst | mobile/src/utils/helpers.ts:11-15 | `getRecordId({b: x, 0: y})` is `'{"0":y,"b":x}'`: the fallback lists the array-index key first |
| Helpers.NormalizeIdIdempotent | mobile/src/utils/helpers.ts:12 | normalising a string result again returns it unchanged |
| Helpers.DateForInput | mobile/src/utils/helpers.ts:22-24 | the result is the prefix of the ISO text before its first `T` (the whole text when there is none) and contains no `T` |
| ClientTypes.KindName | mobile/app/add.tsx:24 | the form's kind is always `income` or `expense` |
| UseApi.TryBlock | mobile/src/hooks/useApi.ts:19-38 | the `try` block completes exactly when no fetch rejects and every ok body parses; a rejected fetch stops it before any setter; it never touches `loading` or the error |
| UseApi.Settle | mobile/src/hooks/useApi.ts:19-44 | `loading` ends false; the error is set to the load-failure message exactly when the `try` block threw |
| UseApi.Reload | mobile/src/hooks/useApi.ts:14-45 | `fetchData` always ends with `loading` false; the error is cleared at the start and ends set exactly when a fetch rejected or an ok body failed to parse; each resource keeps its old value or takes its ok reply's body |
| UseApi.NotOkKeepsResource | mobile/src/hooks/useApi.ts:25-38 | a non-ok reply leaves that resource's previous value in place |
| UseApi.ThrowKeepsAll | mobile/src/hooks/useApi.ts:19-41 | a rejected fetch leaves all three resources unchanged and sets the error |
| UseApi.MalformedStopsLater | mobile/src/hooks/useApi.ts:25-44 | an ok body that fails to parse stops the setters after it: the resources read later keep their old values, and the error is set; the setters before it have run, so a body that parsed earlier is taken |
| UseApi.OkBodyTaken | mobile/src/hooks/useApi.ts:25-38 | an ok `null` body gives an empty transaction or category list, the summary body is taken as it is, and no error is set |
| UseApi.FailedCategoriesKeepOthers | mobile/src/hooks/useApi.ts:25-38 | the three resources are set independently: a failed category read neither blocks nor blanks the others |
| UseApi.ApiHook.constructor | mobile/src/hooks/useApi.ts:8-12 | the hook starts with empty lists, no summary, loading and no error |
| UseApi.ApiHook.BeginFetch | mobile/src/hooks/useApi.ts:14-23 | while the three reads are in flight `loading` is true and the error is cleared; exactly the three reads are sent |
| UseApi.ApiHook.FinishFetch | mobile/src/hooks/useApi.ts:25-44 | the setters run in order over the replies as `Settle` describes, and nothing more is sent |
| UseApi.ApiHook.FetchData | mobile/src/hooks/useApi.ts:14-45 | the new state is `Reload` of the old one, and the three reads are sent |
| UseApi.ApiHook.CreateTransaction | mobile/src/hooks/useApi.ts:47-70 | returns true exactly on an ok reply; one POST of the payload, then a reload only on success; otherwise the state is unchanged |
| UseApi.ApiHook.DeleteTransaction | mobile/src/hooks/useApi.ts:72-86 | returns true exactly on an ok reply; exactly one DELETE for the id, no retry, a reload only on success |
| AddScreen.CategoriesOfKind | mobile/app/add.tsx:37 | the filtered list holds only categories of the selected kind, and every such category |
| AddScreen.CategoriesOfKindInOrder | mobile/app/add.tsx:37 | the filter keeps the original order (it distributes over concatenation) |
| AddScreen.CategoriesOfKindCounts | mobile/app/add.tsx:37 | each category of the kind is kept as often as it occurs, no other |
| AddScreen.DefaultCategory | mobile/app/add.tsx:40-44 | with a non-empty filtered list the result names a member of it; the current choice is kept when it is listed or the list is empty; otherwise the first filtered name |
| AddScreen.DefaultCategoryStable | mobile/app/add.tsx:40-44 | re-running the effect changes nothing |
| AddScreen.ValidateForm | mobile/app/add.tsx:46-56 | an empty amount or category is the missing-field error; the form is accepted exactly when both are filled and the parsed amount is a number above zero; the payload carries the parsed amount and the form's kind, category, description and date |
| AddScreen.ValidPayload | mobile/app/add.tsx:52-65 | an accepted payload has a known kind, a positive amount and a category |
| AddScreen.AddForm.constructor | mobile/app/add.tsx:24-29 | the form starts as an expense with empty fields, today's date, not submitting |
| AddScreen.AddForm.SelectDefaultCategory | mobile/app/add.tsx:40-44 | the category becomes `DefaultCategory` of the filtered list |
| AddScreen.AddForm.BeginSubmit | mobile/app/add.tsx:46-58 | returns the validation result; `submitting` is raised only for a valid form |
| AddScreen.AddForm.FinishSubmit | mobile/app/add.tsx:67-73 | `submitting` is lowered whatever the outcome; the screen goes back only on success |
| AddScreen.AddForm.HandleSubmit | mobile/app/add.tsx:46-74 | a rejected form sends nothing and changes nothing; a valid one sends exactly its payload, ends with `submitting` false, and reports saved exactly on an ok reply |
| HomeScreen.SortByDateDesc | mobile/app/index.tsx:36-38 | the sorted copy holds the same transactions, each as often |
| HomeScreen.SortIsNewestFirst | mobile/app/index.tsx:36-38 | the sorted list is non-increasing by date |
| HomeScreen.SortIsStable | mobile/app/index.tsx:36-38 | transactions with equal dates keep their original relative order |
| HomeScreen.BalanceShown | mobile/app/index.tsx:66 | with no summary the zero placeholder is shown, otherwise the balance |
| HomeScreen.IncomeShown | mobile/app/index.tsx:75 | with no summary the income card shows 0, otherwise the total income |
| HomeScreen.ExpenseShown | mobile/app/index.tsx:81 | with no summary the expense card shows 0, otherwise the total expense |
| HomeScreen.ShownFiguresAgree | mobile/app/index.tsx:66-81 | the header balance equals income minus expense as shown on the cards |
| HomeScreen.ListKey | mobile/app/index.tsx:107 | the key is `id.ID` if truthy, else `id` if truthy, else the row index |
| HomeScreen.ListKeyIsNormalizedId | mobile/app/index.tsx:107 | for a non-empty string id or an object with a truthy `ID`, the row key is the normalised id |
| TransactionItem.FindCategory | mobile/src/components/TransactionItem.tsx:16 | the first category whose name equals the transaction's category, and none exactly when no name matches |
| TransactionItem.Render | mobile/src/components/TransactionItem.tsx:17-57 | the sign is `+` exactly for income and `-` otherwise; the icon is the found category's non-empty icon, else the kind icon; an empty description is replaced by the placeholder; icon and description are never empty |
| TransactionItem.DeleteArgument | mobile/src/components/TransactionItem.tsx:28 | delete receives the normalised id, never the raw object |
| Auth.BearerToken | backend/auth.go:55-69 | an empty header is refused; an accepted token contains no space |
| Auth.BearerTokenExact | backend/auth.go:63-69 | a header is accepted exactly when it is `Bearer`, one space and a space-free token, so a double or trailing space is refused |
| Auth.ClaimsOf | backend/auth.go:81-96 | the uid and provider come from the token; e-mail and name are copied only when present as strings, else empty |
| Auth.Authorize | backend/auth.go:55-96 | the checks in order; a token that fails verification is refused; success gives the token's claims |
| Auth.GetCurrentUser | backend/auth.go:106-112 | fails exactly when no claims are stored under `user` |
| Auth.AuthMiddleware | backend/auth.go:52-103 | the next handler runs exactly when authorisation succeeds, with the claims stored; a rejection leaves the context unchanged |
| Auth.OptionalAuthMiddleware | backend/auth.go:115-152 | never rejects; claims are stored only when every check passes |
| Server.WithPrefix | backend/main.go:272-277 | the result carries the prefix; it is the id itself exactly when the id already has the prefix, else the prefixed id |
| Server.TransactionRecordId | backend/main.go:300-305 | a transaction record id always starts with `transaction:` |
| Server.CategoryRecordId | backend/main.go:348-353 | a category record id always starts with `category:` |
| Server.WithPrefixIdempotent | backend/main.go:272-277 | prefixing twice is prefixing once |
| Server.TransactionKeyOrText | backend/main.go:300-305 | a bare key and the full `transaction:key` text name the same record |
| Server.AcceptTransaction | backend/main.go:233-254 | 401 without claims, 400 on a bind error, an unknown kind or an amount of zero or less; accepted exactly otherwise, with the caller's uid and the time set |
| Server.AcceptIgnoresClientOwner | backend/main.go:253-254 | a client-sent owner or creation time makes no difference |
| Server.CreateTransaction | backend/main.go:233-260 | the accepted record is added under its new key (at the end of the table, see Left out); a write error is a 500 |
| Server.CreateOnlyAddsToCaller | backend/main.go:253-256 | a create adds one valid record owned by the caller to the caller's list (at its end, see Left out) and changes no other user's list |
| Server.AcceptCategory | backend/main.go:328-336 | 400 on a bind error or an unknown kind; otherwise the category as sent |
| Server.CreateCategory | backend/main.go:328-342 | the accepted category is added under its new key (at the end of the table, see Left out); a write error is a 500 |
| Server.DeleteTransaction | backend/main.go:297-313 | the named record is removed and every other record kept |
| Server.DeleteReachesEveryOwner | backend/main.go:297-313 | for every user, their list after a delete is their list before it minus the named record, whoever asked |
| Server.DeleteCategory | backend/main.go:345-361 | the same rule with the `category:` prefix |
| Server.Merge | backend/main.go:280-287 | exactly kind, amount, category, description and date are taken from the update; id, owner and creation time are kept |
| Server.MergeLastWins | backend/main.go:280-287 | merging the same fields again changes nothing; a later merge wins |
| Server.ApplyUpdate | backend/main.go:280-289 | the named record is merged and every other record kept, in place |
| Server.UpdateKeepsOwners | backend/main.go:280-287 | an update commutes with per-user listing: no record changes owner |
| Server.UpdateTransaction | backend/main.go:263-294 | 400 on a bind error; otherwise the five fields are merged into the named record, with kind and amount unchecked |
| Server.OwnedBy | backend/main.go:221-228 | only the caller's transactions, and every one of them |
| Server.OwnedByExact | backend/main.go:221-228 | the caller gets each of their stored transactions as often as stored, and nobody else's |
| Server.GetTransactions | backend/main.go:209-231 | 401 without claims, 500 on a read error; otherwise exactly the caller's transactions in stored order, `null` when there are none |
| Server.Step | backend/main.go:381-389 | another user's transaction changes nothing; the caller's adds its amount to income plus expense; only an expense adds its category to the map; the balance is left alone |
| Server.Fold | backend/main.go:380-392 | the loop leaves the balance at zero, to be set after it |
| Server.SummaryOf | backend/main.go:377-394 | the balance is income minus expense |
| Server.GetSummary | backend/main.go:365-396 | 401 without claims, 500 on a read error; otherwise the loop's result equals the fold `SummaryOf` |
| Server.IncomeTotal | backend/main.go:381-386 | total income is the sum of the caller's `income` amounts |
| Server.ExpenseTotal | backend/main.go:386-388 | total expense is the sum of all the caller's other amounts, whatever their kind text |
| Server.ByCategoryEntry | backend/main.go:386-389 | a category is in the map exactly when the caller has an expense in it, and its value is their sum |
| Server.ByCategorySumsToExpense | backend/main.go:386-389 | the per-category values add up to total expense |
| Server.SummaryOnlyOwned | backend/main.go:381-383 | other users' transactions make no difference |
| Server.SummaryMeaning | backend/main.go:377-394 | the summary's totals, balance and per-category map, all in the caller's terms |
| Users.FirstWithUid | backend/user.go:30-31 | the index of the first stored user with the uid, and none exactly when there is no such user |
| Users.FirstIsOnly | backend/user.go:80 | with unique uids the first match is the only one |
| Users.LoginOf | backend/user.go:24-65 | a successful login returns a user with the caller's uid, e-mail and name; a failure is the create error and leaves the table unchanged |
| Users.LoginFindsExisting | backend/user.go:30-43 | the first stored user with the uid is returned with the claims' e-mail and name, keeping key, provider and times; nothing is created; the table changes only in that record's e-mail, name and update time, and only when they differ and the update succeeds |
| Users.LoginUpdatesOnlyOnChange | backend/user.go:33-42 | an update is sent exactly when a found user's e-mail or name differs; a failed update does not change the reply |
| Users.LoginCreatesNew | backend/user.go:48-64 | with no match or a failed read, a user built from the claims is created; the reply is that user or the create error |
| Users.FailedReadOfKnownUserFails | backend/user.go:58-61 | after a failed read, creating an already stored user fails on the unique index |
| Users.LoginKeepsTableValid | backend/user.go:80 | a login keeps uids and keys unique |
| Users.SecondLoginQuiet | backend/user.go:24-65 | a second login with the same claims sends only the read and returns the same user |
| Users.UserTable.FindByUid | backend/user.go:30-45 | the scan finds the first user with the uid, or reports that there is none |
| Users.UserTable.GetOrCreateUser | backend/user.go:24-65 | the reply, the table and the queries sent are those of `LoginOf`, and uniqueness is kept |
| Users.CurrentUserHandler | backend/main.go:193-206 | 401 without claims and nothing sent; otherwise the login, with its error as a 500 |
| EndToEnd.ToClientId | backend/main.go:19 | an absent id is omitted; a present one is an object whose `ID` is the record key |
| EndToEnd.ToClient | backend/main.go:17-27 | the client receives the server's fields unchanged, with an empty `created_at` omitted |
| EndToEnd.IdPathRoundTrip | backend/main.go:300-305 | a stored id normalised by the client and prefixed by the server names the same record |
| EndToEnd.DeleteArgumentIsKey | mobile/src/components/TransactionItem.tsx:28 | the row's delete button sends the record key |
| EndToEnd.DeleteThenListHidesRow | backend/main.go:297-313 | after a delete through a row's button, no user's list holds that record |
| EndToEnd.Bound | backend/main.go:239-242 | the create body binds with no id, owner or creation time |
| EndToEnd.ValidFormAccepted | backend/main.go:244-250 | every form the client accepts passes the server's checks, and the record carries the form's values and the caller's uid |
| EndToEnd.ReloadShowsOwned | mobile/src/hooks/useApi.ts:25-28 | after a successful read the client holds exactly the caller's stored transactions, and `null` becomes an empty list |
| EndToEnd.UnsignedReadsKeepOldState | backend/auth.go:55-60 | a request without an `Authorization` header is refused, and the client keeps its transactions and summary |

## Left out

- Server.CreateTransaction, Server.CreateCategory: the order in which the
  database lists a table is not modelled. The model appends a new record at
  the end; the real position follows the database's ordering of record ids,
  so where a new transaction falls among rows of the same date on the home
  screen is the model's choice.
- Database connection, the retry loop, namespace and database setup, the user
  table schema and the seeding of default categories. These are I/O against
  the database. Tables are sequences, and the unique index on the user's uid
  is the table invariant.
- Firebase initialisation and `VerifyIDToken`. Token verification is a function
  parameter that gives a token or nothing.
- Web framework routing, CORS and logging, and `getCategories`, which passes the
  category table through unchanged.
- HTTP itself, request body binding, `encodeURIComponent` and JSON parsing in
  the client. Replies are abstract outcomes (ok with a body, not ok, rejected).
  A bind error is an input, and a body that fails to parse is `Malformed`.
- How the database parses the query text built by string formatting. An id
  with spaces or `;` is not modelled. Delete and update act on the record
  whose `table:key` text equals the prefixed id. An update of a missing
  record changes nothing.
- A client-sent `id` in a create body. The database's choice of key is an
  input.
- The JSON form of a record identifier is taken to be an object with `Table`
  and `ID` members, the default encoding of a struct without tags.
- JsValue.Stringify: numbers are unbounded integers. JavaScript writes an
  integer of 10^21 or more in exponent form (`1e+21`); the model writes all
  its digits. Non-integer numbers, lone surrogate escapes and repeated object
  keys are not covered; for a repeated key, the first binding is read.
- `Promise.all` interleaving, overlapping reloads and React effect
  scheduling. `fetchData` is one sequential step over given replies.
- Floating point. Amounts are exact reals, so no rounding claim is made.
  JavaScript numbers inside identifiers are integers.
- `Number.parseFloat`, `new Date(...)`, `toISOString` and `Intl` formatting
  (`formatCurrency`, `formatDate`). A parsed amount is an input (None for
  NaN), a date's time value is an input function, and the current time is a
  string input. An invalid date, which sorts as NaN, is not modelled.
- `time.Now()` and the log lines. Times are inputs.
- Screens, styles, alerts and navigation. The summary card, the layout, the
  theme, the web prototype and the Firebase configuration are not part of
  this model.
- Users.UserTable.GetOrCreateUser: a stored user is assumed always to have
  its key. The source would fail on a stored user without one.
