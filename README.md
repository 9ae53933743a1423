# MoneyMap handlers in Dafny

MoneyMap is a small Flask web application for personal finances. A user
registers with a username, an email and a password, logs in, and then keeps
three kinds of records: transactions (income or expense, with a category and
a frequency), budgets (a category, an amount and a period) and savings goals
(a name, a target amount and an amount saved so far). Each page is a request
handler that reads the submitted form and the session cookie, queries or
changes the SQLite database through SQLAlchemy, sets a flash message and
redirects or renders a template.

This project models those handlers in both revisions of the repository:

- `routes.dfy` (module `Routes`): the final revision, the `main` blueprint of
  `app/routes.py` over the tables of `app/models.py`.
- `legacy.dfy` (module `Legacy`): the earlier single-file revision `app.py`.
  Its handlers differ in four ways. The dashboard does not order
  transactions. The registration message is shorter. The transaction table's
  `frequency` column is non-null. A second `/login` handler reports both
  login failures with one combined message.

Each revision is a class `App` whose fields are the four tables and one
client's session. The tables are `users`, `transactions`, `budgets` and
`goals`, each a map from primary key to record. The session is
`Option<nat>`, the `user_id` the signed cookie carries. Every handler is a
method that may change only the fields its `modifies` clause names. Its
`ensures` clauses state the response (a redirect with its flash text, a
rendered view, a 404 or a 400) and the new state for every branch of the
handler.

The supporting modules:

- `store.dfy`: how the store behaves. SQLite gives a new row the key one
  above the largest key in its table, or 1 in an empty table (`NextId`). A
  query without an ordering is taken to return rows in ascending key order
  (`Rows`, `OwnedRows`); SQL itself leaves that order open, and "## Left out"
  records this as an assumption. The lemma `OwnedRowsLocal` proves that a
  user's query result depends only on the rows that user owns.
- `passwords.dfy`: Werkzeug's salted hashing, with the key derivation and the
  salt as parameters.
- `models.dfy`: the four record types, the unique constraints of the user
  table, and the ownership property `OwnersExist`.
- `accounts.dfy`: lookup by email, the duplicate check of registration, and
  the two-stage credential check of login. `LoginSucceedsIff` and
  `WrongPasswordIff` prove that, with unique emails, the outcome is exactly
  what the credentials determine.
- `queries.dfy`: the dashboard's queries. The final revision orders
  transactions newest first (`TransactionsByDate`: a permutation of the
  user's rows whose dates never increase). `OtherUsersInvisible` proves that
  what other users add or delete never changes a user's dashboard lists.
- `web.dfy`: requests, forms, responses, the flash texts, and the form checks
  that the add handlers' `try` blocks amount to.
- `scenarios.dfy`: the request sequences of the application's tests, and a
  few more, replayed against the handlers' contracts. The tests import `app`,
  `User` and the other models from `app`, which Python resolves to the
  package `app/__init__.py`; that package defines `db` but none of the
  others, so as written the tests reach neither revision. The scenarios
  follow their evident intent against the handlers of `app.py`.

Behaviour the model makes visible:

- The add handlers trust the session cookie without looking the user up.
  The dashboard does look the user up, and clears a session that names no
  user. SQLite does not enforce the declared foreign keys. So a cookie that
  names a deleted or never-existing user id can store records owned by
  nobody (`StaleSessionScenario`). In that state such a record appears on no
  user's dashboard (`OwnersExistIffListed`), but not for good: a new user
  receives the key one above the largest, so a later registration can receive
  the very id the record names, and the record then appears on the new
  user's dashboard (`AdoptedBudgetScenario`). Every handler except the add handlers
  keeps `OwnersExist` unconditionally: the delete handlers prove it, the
  others cannot change the record tables. The add handlers keep it only when
  the session names an existing user.
- Registration computes the hash before it checks for a taken username or
  email. The check is a single query: "username equal OR email equal".
- Login looks the email up first. An unknown email and a wrong password get
  different messages in the final revision and in the first `/login` handler
  of `app.py`.

Where the code's comments and column declarations suggest more than the
handlers do, the model follows the handlers:

- No handler checks `transaction_type`, `frequency` or `period` against a
  list of allowed values. Any string is stored.
- The transaction handler reads `frequency` inside its `try` block. A form
  without that field therefore ends in the error redirect back to the form.
  The column's default "einmalig" is never applied.
- In `app.py`, two handlers are registered for `/login`. Flask dispatches to
  the first one registered, `user_login`, and the tests expect its messages.
  `Legacy.App.Login` models the second handler on its own.

## Model

| member | source | states |
|---|---|---|
| Store.NextId | app/models.py:6 | the new key is not yet in the table and exceeds every key in it; it is 1 in an empty table and otherwise one above the largest key |
| Store.IdsAscending | app/routes.py:99 | a full scan visits each key of the table exactly once, in strictly increasing order |
| Store.Rows | app/routes.py:99 | the rows of a table, each `Row(id, record)` exactly when the table maps `id` to `record`, in increasing key order |
| Store.Owned | app/routes.py:99 | filtering keeps exactly the rows whose owner is the user, and keeps key order |
| Store.OwnedRows | app/routes.py:99 | a per-user query returns exactly the user's rows, each once, in key order, and nothing when the user owns no row |
| Store.OwnedRowsLocal | app/routes.py:98-100 | two tables that agree on the rows a user owns give that user the same query result |
| Passwords.GeneratePasswordHash | app/routes.py:53 | the stored hash names the pbkdf2:sha256 method and its salt; `CheckPasswordHash` (derive again with the stored salt, compare digests) accepts the password the hash was made from, and accepts another password exactly when the derivation cannot tell the two apart |
| Accounts.TakenIff | app/routes.py:56-59 | `Taken`, the single "username equal OR email equal" query of registration, finds a user exactly when the login lookup finds the email or some user has the username |
| Accounts.FirstWithEmail | app/routes.py:17 | the first key of the scan whose user has the email: every key before it in the scan belongs to a user with another email; none when no user in the scan has it |
| Accounts.ScanMissesOnlyAbsent | app/routes.py:17 | a full scan that stops at no user means no user has the email |
| Accounts.ScanFindsSmallest | app/routes.py:17 | a full scan by ascending key stops at the smallest key whose user has the email |
| Accounts.FindByEmail | app/routes.py:17 | the lookup finds a user with that email, and finds none exactly when no user has it |
| Accounts.FindByEmailFindsSmallest | app/routes.py:17 | of the users with the email, `.first()` finds the one with the smallest key |
| Accounts.Authenticate | app/routes.py:17-33 | unknown email exactly when no user has it; a wrong password only for an existing user whose hash rejects it; success only for the user with that email whose hash accepts the password |
| Accounts.LoginSucceedsIff | app/routes.py:17-30 | with unique emails, login as user `id` succeeds exactly when `id` has that email and its hash accepts the password |
| Accounts.WrongPasswordIff | app/routes.py:24-27 | with unique emails, "wrong password" is the outcome exactly when a user with that email exists and its hash rejects the password |
| Accounts.FreshAccountKeepsUnique | app/routes.py:56-67 | adding a user whose username and email are both free keeps `UniqueAccounts`, the two unique constraints of the user table (no two users share a username, no two share an email) |
| Accounts.RegisteredUserCanLogIn | app/routes.py:53-67 | after a registration with a free username and email, logging in with the same email and password succeeds as the new user |
| Accounts.UniqueEmailsFindEveryUser | app/models.py:8 | under `UniqueAccounts`, the lookup by a user's email finds that user |
| Queries.TransactionsOf | app.py:193 | the earlier dashboard lists exactly the user's transactions, each once, in key order |
| Queries.BudgetsOf | app/routes.py:99 | the dashboard lists exactly the user's budgets, each once, in key order |
| Queries.GoalsOf | app/routes.py:100 | the dashboard lists exactly the user's savings goals, each once, in key order |
| Queries.PrependNewest | app/routes.py:98 | a row no older than any row of a newest-first list may go in front of it |
| Queries.InsertByDate | app/routes.py:98 | inserting a row into a newest-first list keeps it newest first and adds exactly that row |
| Queries.SortByDateDesc | app/routes.py:98 | ordering by date descending yields a permutation of the rows whose dates never increase |
| Queries.TransactionsByDate | app/routes.py:98 | the final dashboard lists exactly the user's transactions, each once, newest first |
| Queries.OtherUsersInvisible | app/routes.py:98-100 | what other users add or delete never changes a user's transaction, budget and savings-goal lists |
| Queries.TransactionOwnersListed | app/routes.py:98 | every transaction's owner exists exactly when every transaction is on some existing user's dashboard |
| Queries.BudgetOwnersListed | app/routes.py:99 | every budget's owner exists exactly when every budget is on some existing user's dashboard |
| Queries.GoalOwnersListed | app/routes.py:100 | every savings goal's owner exists exactly when every goal is on some existing user's dashboard |
| Queries.OwnersExistIffListed | app/models.py:21-36 | every owner column names an existing user exactly when every record is on some existing user's dashboard |
| Queries.ListedTransactionsHaveFrequency | app.py:85-87 | when no stored transaction lacks a frequency, no transaction a dashboard lists lacks one |
| Models.OwnersExist | app/models.py:21-36 | every owner column names an existing user; with no users this holds exactly when all record tables are empty |
| Web.TransactionFromForm | app/routes.py:122-129 | on a form that passes `TransactionFormOk` (every field present, the amount parses), the record is owned by the session user, dated now, with the parsed amount and the submitted frequency |
| Web.TransactionFormRoundTrip | app/routes.py:117-129 | any transaction with a frequency, submitted as the form the page sends (`TransactionForm`) with an amount text that parses to its amount, passes `TransactionFormOk` and is built back unchanged |
| Web.BudgetFromForm | app/routes.py:172-175 | on a form that passes `BudgetFormOk`, the record is owned by the session user and has the parsed amount |
| Web.BudgetFormRoundTrip | app/routes.py:169-176 | any budget submitted as the form the page sends (`BudgetForm`) passes `BudgetFormOk` and is built back unchanged |
| Web.GoalFromForm | app/routes.py:219-223 | on a form that passes `GoalFormOk`, the goal is owned by the session user, dated now, with nothing saved and the parsed target |
| Web.GoalFormRoundTrip | app/routes.py:216-223 | any goal with nothing saved yet, submitted as the form the page sends (`GoalForm`), passes `GoalFormOk` and is built back unchanged |
| Routes.App.constructor | app/models.py:5-36 | an empty database: no users and no records; the client presents any session cookie |
| Routes.App.UserLogin | app/routes.py:11-36 | GET renders the form; a form failing `LoginFormComplete` (a missing field) is a 400; unknown email and wrong password redirect to login with their own messages and keep the session; success stores the user's id in the session and redirects to the dashboard; `Valid` (unique accounts) is kept |
| Routes.App.Home | app/routes.py:39-43 | redirects to the dashboard exactly when the session holds a user id, and to login otherwise, without a flash |
| Routes.App.Register | app/routes.py:46-73 | GET renders the form; a form failing `RegisterFormComplete` (a missing field) is a 400; when `Taken` holds the client is redirected back and nothing is added; otherwise exactly one user, holding the hash, is added under the next key; `Valid` (unique accounts) is kept |
| Routes.App.Logout | app/routes.py:76-81 | the session is empty afterwards and the client is sent to login with the logout message |
| Routes.App.Dashboard | app/routes.py:84-107 | no session redirects to login; a session naming no user is cleared; otherwise renders the user's transactions newest first and the user's budgets and goals |
| Routes.App.AddTransaction | app/routes.py:110-138 | no session redirects to login; GET renders the form; a form failing `TransactionFormOk` (a missing field or an unparseable amount) redirects back and adds nothing; otherwise exactly one transaction owned by the session user is added under the next key; ownership stays consistent when the session user exists |
| Routes.App.DeleteTransaction | app/routes.py:141-159 | no session redirects to login; an absent id is a 404; someone else's row is refused and kept; the owner's row, and only it, is removed; ownership stays consistent |
| Routes.App.AddBudget | app/routes.py:162-185 | as for transactions: exactly one budget owned by the session user is added, or nothing on a form failing `BudgetFormOk` or without a session |
| Routes.App.DeleteBudget | app/routes.py:188-206 | 404 when absent, refused when someone else's, otherwise exactly that budget is removed |
| Routes.App.AddSavingsGoal | app/routes.py:209-233 | exactly one goal owned by the session user, with nothing saved yet, is added, or nothing on a form failing `GoalFormOk` or without a session |
| Routes.App.DeleteSavingsGoal | app/routes.py:236-254 | 404 when absent, refused when someone else's, otherwise exactly that goal is removed |
| Legacy.App.constructor | app.py:29-108 | an empty database: no users and no records; the client presents any session cookie |
| Legacy.App.UserLogin | app.py:42-71 | the first `/login` handler: separate messages for unknown email and wrong password; only success sets the session; `Valid` (the unique constraints) is kept |
| Legacy.App.Login | app.py:153-166 | the second `/login` handler: both failures give one combined message and keep the session; success sets the session |
| Legacy.App.Home | app.py:112-116 | redirects to the dashboard exactly when the session holds a user id |
| Legacy.App.Register | app.py:120-149 | when `Taken` holds nothing is added; otherwise exactly one user is added, with the shorter success message; `Valid` (the unique constraints) is kept |
| Legacy.App.Logout | app.py:170-175 | the session is empty afterwards |
| Legacy.App.Dashboard | app.py:179-202 | as in the final revision, but the user's transactions are listed in key order |
| Legacy.App.AddTransaction | app.py:206-234 | exactly one transaction owned by the session user is added, its frequency the submitted one; `FrequenciesKept` (the non-null `frequency` column of app.py:85-87: every stored transaction has a frequency) is kept |
| Legacy.App.DeleteTransaction | app.py:238-256 | 404 when absent, refused when someone else's, otherwise exactly that transaction is removed |
| Legacy.App.AddBudget | app.py:260-283 | exactly one budget owned by the session user is added, or nothing |
| Legacy.App.DeleteBudget | app.py:287-305 | 404 when absent, refused when someone else's, otherwise exactly that budget is removed |
| Legacy.App.AddSavingsGoal | app.py:309-333 | exactly one goal owned by the session user, with nothing saved yet, is added, or nothing |
| Legacy.App.DeleteSavingsGoal | app.py:337-355 | 404 when absent, refused when someone else's, otherwise exactly that goal is removed |
| Scenarios.RegisterScenario | tests/test_app.py:38-44 | a second account next to the fixture user registers with the success message |
| Scenarios.LoginLogoutScenario | tests/test_app.py:46-57 | login with the right password succeeds; logout empties the session; login with a wrong password gets the wrong-password message and opens no session |
| Scenarios.DashboardAccessScenario | tests/test_app.py:59-71 | without a session `/` and the dashboard send the client to login; after login the dashboard renders three empty lists |
| Scenarios.AddThenListScenario | app/routes.py:110-133 | after one expense is added, the user's dashboard lists exactly that transaction, under key 1 |
| Scenarios.IsolationScenario | app/routes.py:188-197 | another user can neither delete nor see a user's budget, and the budget stays in the table |
| Scenarios.StaleSessionScenario | app/routes.py:162-180 | a session naming no user can still add a budget, which then has no owner, while the dashboard rejects the same session |
| Scenarios.AdoptedBudgetScenario | app/routes.py:162-180 | a budget stored under a cookie naming user 1 on a database with no users shows up on the dashboard of the next account registered, which receives key 1 |

## Left out

- Flask itself is not modelled: routing, templates, the HTTP layer, cookie signing, flash categories, logging, and the 404 and 500 error pages. The client may present any session cookie; with the secret key fixed in the source (app.py:20, and the fallback in config.py) a client can forge one. A handler's outcome is a `Response` value. A rendered dashboard is the three lists it passes to its template.
- Database commit failures are not modelled. The `except` branches around `commit()` in the add and delete handlers are left out, and every commit succeeds.
- Werkzeug's PBKDF2 over SHA-256 is not modelled. The key derivation is an abstract function (`Kdf`). The random salt is a parameter. The iteration count and the text encoding of the stored hash are not modelled.
- Python's `float()` is not modelled. It is an abstract function from text to an optional real. Amounts are reals, so floating-point rounding is not modelled; no handler computes with them.
- Timestamps are not modelled as clock readings. `datetime.utcnow()` becomes an integer parameter `now`.
- Queries.SortByDateDesc: does not state the order of transactions with equal dates. SQLite leaves that order unspecified.
- Routes.App.Dashboard: renders `TransactionsByDate`, which keeps transactions with equal dates in ascending key order. That order of ties is a modelling assumption: `ORDER BY date DESC` promises no order among equal dates.
- Query order is a modelling assumption. A query without ORDER BY is taken to return rows in ascending key order, as a full scan of a rowid table with no index on `user_id` does. SQL leaves that order unspecified. The assumption fixes the exact lists of `Legacy.App.Dashboard` (all three) and the budget and goal lists of `Routes.App.Dashboard`, and which user `FindByEmail` finds when several share an email (the unique constraint rules that out).
- Store.NextId: does not model SQLite's largest rowid, 2^63-1. Keys are unbounded, and the fallback of picking an unused key at random once the largest key is taken is not modelled.
- String length limits of the columns (`String(150)` and so on) are not modelled. SQLite does not enforce them.
- `process_recurring_transactions` in `app.py` is not modelled. No handler calls it. It names `relativedelta` and `timedelta` without importing them. For a "einmalig" transaction it reads `next_due_date` before assigning it.
- The application factory, configuration and migrations are not part of this model: `app/__init__.py`, `config.py` and the migration scripts.
- Concurrent clients are not modelled. One `App` carries one client's session.
