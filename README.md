# aes256-profile-vault: ledger rules and client session logic in Dafny

This project models the core of a small banking web application: a Django REST server and a React client.

On the server it models the transfer endpoint over a ledger and the two read-only queries.
- The ledger has a user table, one balance per user profile, and a transaction table.
- The transfer endpoint moves money between two profiles inside one database transaction.
- The history query returns the requester's transactions, newest first.
- The user-list query returns every other user, in username order.

On the client it models the browser-side session and form handlers.
- The authentication context tracks the signed-in user, `isAuthenticated` and `loading`.
- The route guard lets the dashboard route through only with an access token.
- The sign-in page's submit handler.
- The sign-up page's submit handler, with its Aadhaar length check and server-error flattening.
- The dashboard's data fetch, transfer, sign-out and activity rows.

How the model is built:
- Every asynchronous request is a sequential step. Its outcome (`Ok(data)` or `Err(error)`) is a parameter of the handler.
- Each page keeps a ghost log `requests` of the requests it issued, so "no request is made" can be stated.
- The browser's `localStorage` is one shared object, `Storage.LocalStorage`. The context and the pages that write it therefore see each other's changes.
- JavaScript truthiness is kept throughout:
  - an empty-string token counts as no token;
  - an empty `detail` or `error` field falls back to the default message.
- A JSON error body is a sequence of named fields. `Api.DistinctKeys` says that no name occurs twice, as in any parsed JSON object.
- Pressing a form's submit button first runs the browser's constraint validation: `required` and `type="email"` on the sign-in and sign-up pages, and `type="number"` on the dashboard's amount. The page's handler runs only when the validation passes. Each page's `Submit` method is that step.
- The router matches a pathname against a route's path case-insensitively and ignores trailing slashes, as React Router's `Routes` does. `App.RouteKey` is that comparison.

Modules:
- `Wrappers`, `Storage`, `Api` (common.dfy): option type, browser storage, and the request and response shapes.
- `Ledger` (ledger.dfy): the server's tables and `TransferView.post`.
- `Queries` (queries.dfy): `TransactionHistoryView.get` and `UserListView.get`.
- `AuthContext` (auth_context.dfy): `AuthProvider`.
- `App` (app.dfy): `ProtectedRoute` and the route table.
- `LoginPage`, `RegisterPage`, `DashboardPage` (login.dfy, register.dfy, dashboard.dfy): the three pages.

Behaviour of the code that the model keeps:
- The sign-in page writes the tokens straight into `localStorage` without calling the context's `login`. So the context's `isAuthenticated` can differ from what storage holds until the context checks again.
- The dashboard's sign-out calls `localStorage.clear()` without calling the context's `logout`. So it removes every key, not only the two tokens, and leaves the context's `user` and `isAuthenticated` as they were.
- A transfer to an unknown receiver gets 500 "Transfer failed". `get_object_or_404` raises `Http404`, which is neither `UserProfile.DoesNotExist` nor `ValueError`, so only the generic handler catches it.
- The views read and write a profile `balance` and create `Transaction` rows. The `UserProfile` model in server/authentication/models.py has no `balance` field, and that file defines no `Transaction` model. The model follows the views.
- `UserProfileSerializer` (server/authentication/serializers.py:30-37) sends only `username`, `email` and `aadhaar_number`, so the profile answer as written carries no `balance`. The model's `Profile` keeps a `balance` field because the dashboard displays one. The dashboard properties state what is shown of whatever the server sends, and do not claim that a balance arrives.

## Model

| member | source | states |
|---|---|---|
| Ledger.Judge | server/authentication/views.py:52-65 | The transfer is accepted exactly when the amount is positive, the receiver is not the sender, both profiles and the receiver's user exist, and the sender's balance covers the amount. The checks run in source order. An amount <= 0 is refused as not positive before anything else. A positive self-transfer is refused as such. Then a missing sender profile, an unknown receiver, a missing receiver profile, and a shortfall each give their own verdict. A shortfall means the balance is below the amount, so an exact balance is accepted. |
| Ledger.Reply | server/authentication/views.py:52-87 | Definition: the status and body the view answers for each verdict. |
| Ledger.ReplySucceedsOnlyWhenAccepted | server/authentication/views.py:52-87 | The reply is 200 if and only if the transfer was accepted, and every other reply carries an error. It is 500 exactly for an unknown receiver and 400 for every other refusal. "User profile error" is exactly the reply for a missing profile. |
| Ledger.TransferReplies | server/authentication/views.py:52-87 | The reply read off the request and the tables. A non-positive amount gets 400 "Amount must be positive". A self-transfer gets 400 "Cannot transfer to yourself". A missing sender or receiver profile gets 400 "User profile error". An unknown receiver gets 500 "Transfer failed". A shortfall with both profiles present gets 400 "Insufficient funds". A covered transfer, an exact balance included, gets 200 "Transfer successful". |
| Ledger.Moved | server/authentication/views.py:67-68 | After a transfer the accounts are the same users, the sender is debited by the amount, the receiver is credited by it, and every other balance is unchanged. |
| Ledger.TotalRemove | server/authentication/views.py:67-71 | The sum of balances splits off any one account. The proof is by induction. |
| Ledger.TotalDiffersAtTwo | server/authentication/views.py:67-71 | Two ledgers over the same accounts that agree everywhere except at two accounts differ in sum by exactly the changes at those two accounts. |
| Ledger.SameOutsideTwo | server/authentication/views.py:67-71 | Two ledgers that agree outside two accounts are equal once those two accounts are dropped. |
| Ledger.MovedConservesTotal | server/authentication/views.py:67-71 | A transfer between two accounts leaves the total of all balances unchanged. |
| Ledger.MovedKeepsNonNegative | server/authentication/views.py:64-68 | A covered, positive transfer keeps every balance non-negative. Paying exactly the whole balance leaves the sender at 0. |
| Ledger.Bank.constructor | server/authentication/views.py:60-62 | A ledger in which every profile belongs to a user, with an empty transaction table. |
| Ledger.Bank.Transfer | server/authentication/views.py:45-89 | A body the serializer rejects gets 400 with the serializer's errors and no change. Otherwise the reply is `Reply(Judge(...))`. On acceptance the two balances move as `Moved` says and exactly one SUCCESS row (sender, receiver, amount, time) is appended. On every rejection the balances and rows are as before. The user table is never changed, the total of balances is conserved, non-negative balances stay non-negative, and the ledger invariant is kept. |
| Ledger.Bank.Atomic | server/authentication/views.py:59-87 | The atomic block checks the sender profile, the receiver user, the receiver profile and the funds, in that order. Nothing is written until all four pass, so a failed check leaves both tables exactly as they were. The state it leaves is the one `Judge` and `Moved` describe. |
| Ledger.Bank.Commit | server/authentication/views.py:67-78 | The writes of an accepted transfer. The sender's profile is debited and the receiver's credited as `Moved` says, one SUCCESS row is appended, and the money total and non-negativity are kept. |
| Ledger.TransferOnce | server/authentication/views.py:45-89 | One transfer on a fresh ledger: the reply is the verdict's reply. On acceptance exactly the two balances move and exactly one SUCCESS row is recorded. Otherwise nothing changes. Money is conserved and balances stay non-negative. |
| Queries.Involving | server/authentication/views.py:96-97 | Each row occurs in the result exactly as often as in the table if the requester sent or received it, and never otherwise. |
| Queries.InsertByTime | server/authentication/views.py:98 | Inserting a row into a newest-first list keeps it newest first and adds exactly that row. |
| Queries.ConsNewestFirst | server/authentication/views.py:98 | A row no older than the head of a newest-first list can go in front of it. |
| Queries.SortNewestFirst | server/authentication/views.py:98 | The result is newest first and a permutation of the input. |
| Queries.History | server/authentication/views.py:96-98 | The requester's history is newest first. It holds each of the requester's rows as often as the table does, and no other row. |
| Queries.NewestFirstPairwise | server/authentication/views.py:98 | In the history no later row has a later timestamp than an earlier one, for every pair, not only neighbours. |
| Queries.HistoryMembers | server/authentication/views.py:96-97 | A row is listed if and only if it is in the table and the requester is its sender or receiver. |
| Queries.LexLe | server/authentication/views.py:109 | Definition: the code-point lexicographic order the model uses for `order_by('username')`. |
| Queries.LexTotal | server/authentication/views.py:109 | Any two usernames are ordered one way or the other. |
| Queries.LexTransitive | server/authentication/views.py:109 | The username order is transitive. |
| Queries.LexReflexive | server/authentication/views.py:109 | The username order is reflexive. |
| Queries.InsertName | server/authentication/views.py:109 | Inserting a name into an ascending list keeps it ascending and adds exactly that name. |
| Queries.ConsAscending | server/authentication/views.py:109 | A name no greater than the head of an ascending list can go in front of it. |
| Queries.SortNames | server/authentication/views.py:109 | The result is ascending and a permutation of the input. |
| Queries.Without | server/authentication/views.py:109 | The requester is removed and every other user keeps its count. |
| Queries.UserList | server/authentication/views.py:109 | The list is in ascending username order, never holds the requester, and holds every other user as often as the user table does. |
| Queries.AscendingPairwise | server/authentication/views.py:109 | Every pair of entries is in order, not only neighbours. |
| Queries.UserListEachOnce | server/authentication/views.py:107-111 | With unique usernames, a name is listed if and only if it is another user's, each exactly once, in strictly ascending order. |
| Storage.LocalStorage.SetItem | client/src/context/AuthContext.jsx:34-35 | Writes one key and leaves the others unchanged. |
| Storage.LocalStorage.RemoveItem | client/src/context/AuthContext.jsx:40-41 | Removes one key and leaves the others unchanged. |
| Storage.LocalStorage.Clear | client/src/pages/DashBoard.jsx:65 | Empties the storage. |
| Storage.HasAccessToken | client/src/App.jsx:7-8 | Definition: `localStorage.getItem('access_token')` is truthy, so the key is present and its value is not the empty string. |
| Storage.WithTokens | client/src/context/AuthContext.jsx:33-37 | After the write, `access_token` holds the access token and `refresh_token` holds the refresh token. Every other key is as before. |
| Storage.WithoutTokens | client/src/context/AuthContext.jsx:39-41 | Neither token key remains. Every other key is as before. |
| Storage.WithoutTokensIdempotent | client/src/context/AuthContext.jsx:39-44 | Removing the tokens a second time changes nothing. |
| Storage.WithoutTokensUndoesWithTokens | client/src/context/AuthContext.jsx:33-44 | Writing the tokens and then removing them leaves what removing them alone leaves: both keys absent, the rest untouched. |
| Storage.WithTokensGivesAccess | client/src/App.jsx:7-8 | After the tokens are written, the guard sees a token if and only if the access token is not empty. |
| Api.Lookup | client/src/pages/DashBoard.jsx:60 | A found field is one of the body's fields under that name. A miss means no field has that name. |
| Api.LookupFindsTheField | client/src/pages/DashBoard.jsx:60 | In a JSON object, whose names are distinct, the field with a given name is the one found. |
| Api.ErrorField | client/src/pages/DashBoard.jsx:60 | Definition: `err.response?.data?.[key]`. It is undefined without a response, without a body, or on a text body. |
| Api.ErrorFieldOfObject | client/src/pages/DashBoard.jsx:60 | For a JSON object body, `err.response.data[key]` is the value of the field with that name, and undefined when no field has it. |
| Api.OrElse | client/src/pages/DashBoard.jsx:60 | Definition of JavaScript's or-with-fallback as it is displayed: a truthy value is shown, and a missing or empty one gives the fallback. |
| Api.Truthy | client/src/pages/Login.jsx:26 | Definition: JavaScript truthiness of a field value. The empty string is falsy, and every other string and every array is truthy. |
| Api.Shown | client/src/pages/Login.jsx:26 | Definition: how React renders the value. A string is shown as it is, and an array of strings as its items side by side. |
| Api.IsUnauthorized | client/src/pages/DashBoard.jsx:40 | Definition: a response arrived and its status is 401. |
| AuthContext.AuthProvider.constructor | client/src/context/AuthContext.jsx:9-11 | The provider starts with no user, loading and not authenticated, and has issued no request. |
| AuthContext.AuthProvider.RendersChildren | client/src/context/AuthContext.jsx:48 | Definition: the children render once loading is over. |
| AuthContext.AuthProvider.Login | client/src/context/AuthContext.jsx:33-37 | Both tokens are stored as given and every other key is kept. The session is authenticated, and the user is left as it was. |
| AuthContext.AuthProvider.Logout | client/src/context/AuthContext.jsx:39-44 | Only the two token keys are removed, the user is null, and the session is not authenticated. |
| AuthContext.AuthProvider.CheckAuth | client/src/context/AuthContext.jsx:13-31 | Without a non-empty access token nothing changes and no request is made. With one, `/profile/` is fetched. On success the session is authenticated and the user is the fetched profile. On failure the state is what `logout` leaves. Loading is false on every path. |
| AuthContext.Mount | client/src/context/AuthContext.jsx:10-48 | After the start-up check the children render. Without a token the context stays signed out with no user. With a token, a good fetch gives the fetched user with storage kept. A failed fetch leaves the tokens removed and the context signed out. |
| AuthContext.LoginThenLogout | client/src/context/AuthContext.jsx:33-44 | `login` stores both tokens. A following `logout` leaves both keys absent, every other key as it was before `login`, and the context signed out. |
| AuthContext.LogoutTwice | client/src/context/AuthContext.jsx:39-44 | A second `logout` leaves storage exactly as the first did, and the context signed out with no user. |
| App.ProtectedRoute | client/src/App.jsx:6-9 | The child is shown if and only if storage holds a non-empty access token. Otherwise the result is a redirect to `/login`. |
| App.TrimTrailingSlashes | client/src/App.jsx:15-28 | The result is the pathname without its trailing slashes: a prefix of it that does not end in '/', followed in the pathname only by slashes. |
| App.LowerAscii | client/src/App.jsx:15-28 | Definition: the case folding of the router's case-insensitive match. Capitals `A` to `Z` become lower case, and every other character is kept. |
| App.RouteKey | client/src/App.jsx:15-28 | What the router compares with a route's path: the pathname without trailing slashes, each character ASCII-lower-cased. |
| App.KeyOfPlainPath | client/src/App.jsx:15-28 | A lower-case pathname without a trailing slash is its own key. |
| App.Route | client/src/App.jsx:15-28 | Definition of the route table: `/login`, `/register`, the root redirect to `/login`, and `/dashboard` behind the guard. Any other path matches nothing. |
| App.Resolve | client/src/App.jsx:15-28 | Definition: the page finally shown for a path, following the one redirect. |
| App.RoutesResolve | client/src/App.jsx:15-28 | `/` always redirects to and lands on the sign-in page. `/login` and `/register` always show their pages. `/dashboard` shows the dashboard with a token and the sign-in page without one. |
| App.GuardCoversDashboardSpellings | client/src/App.jsx:15-28 | Every spelling of `/dashboard` in any mix of capitals, with or without a trailing slash, reaches the guard. |
| App.OnlyDashboardGated | client/src/App.jsx:15-28 | Every path the router does not send to the dashboard route resolves the same whatever storage holds. |
| App.GuardIgnoresRefreshToken | client/src/App.jsx:7 | Writing or removing `refresh_token` never changes the guard's decision. |
| App.SignInThenOpenDashboard | client/src/App.jsx:6-9 | After a successful sign-in with both fields filled, the app goes to `/dashboard`, which shows if and only if the server issued a non-empty access token. After a failed sign-in, or with a field left empty so that the browser submits nothing, the app stays and the guard decides as it did before. |
| LoginPage.LoginError | client/src/pages/Login.jsx:26 | Definition: the server's `detail`, else "Invalid credentials". |
| LoginPage.LoginErrorShowsDetail | client/src/pages/Login.jsx:26 | A non-empty `detail` string is shown verbatim. "Invalid credentials" is shown in four cases: no response arrived, the response has no body, the body is text, or `detail` is absent or empty. |
| LoginPage.LoginErrorOfObject | client/src/pages/Login.jsx:26 | For a JSON object body, a truthy `detail` field is what is shown. A body without a `detail` field shows "Invalid credentials". |
| LoginPage.PassesConstraints | client/src/pages/Login.jsx:52-77 | Definition: the browser's check of the two `required` inputs. Neither may be empty. |
| LoginPage.Login.constructor | client/src/pages/Login.jsx:11-13 | The form starts empty, with no error, not loading, no navigation and no request issued, on the shared storage. |
| LoginPage.Login.Type | client/src/pages/Login.jsx:61-76 | The form holds exactly what was typed. |
| LoginPage.Login.HandleSubmit | client/src/pages/Login.jsx:16-30 | Exactly one request posts the form to `/login/`. On success the tokens from the answer are stored, other keys are kept, the page goes to `/dashboard`, and no error is shown. On failure storage is untouched, the page stays, and the error is the server's `detail` or "Invalid credentials". Loading is false at the end. |
| LoginPage.Login.Submit | client/src/pages/Login.jsx:52-77 | Pressing the button. With an empty `required` input the browser fires no submit event, so no request is made and nothing changes. Otherwise it does exactly what `handleSubmit` does. |
| LoginPage.SubmitTyped | client/src/pages/Login.jsx:16-77 | Typing a username and password and pressing the button. With either left empty, nothing is sent, storage is untouched, and no error is shown. Otherwise exactly `{username, password}` is sent to `/login/`. A success stores the tokens, and a failure leaves storage as it was and shows `LoginError`. |
| RegisterPage.Values | client/src/pages/Register.jsx:37 | Definition of `Object.values`: an object's field values in order, and a string's characters one per value. |
| RegisterPage.Flat | client/src/pages/Register.jsx:37 | Definition of `.flat()`: one level of arrays is spliced in. |
| RegisterPage.Join | client/src/pages/Register.jsx:37 | Definition of `.join(sep)`. |
| RegisterPage.AadhaarAccepted | client/src/pages/Register.jsx:25 | Definition: the handler's length check, at least 12 characters. It checks no digits. |
| RegisterPage.PassesConstraints | client/src/pages/Register.jsx:62-113 | Definition: the browser's constraint validation. All four `required` inputs must be non-empty, and the `type="email"` input must hold an address the browser accepts. |
| RegisterPage.HasBody | client/src/pages/Register.jsx:36 | Definition: `err.response?.data` is truthy, so a body is present and is not the empty text. |
| RegisterPage.RegistrationError | client/src/pages/Register.jsx:36-38 | Definition: the flattened, space-joined values of the body, else "Registration failed". |
| RegisterPage.ValuesAppend | client/src/pages/Register.jsx:37 | The values of two runs of fields are the first run's values followed by the second's. |
| RegisterPage.FlatAppend | client/src/pages/Register.jsx:37 | Flattening distributes over concatenation. The proof is by induction. |
| RegisterPage.JoinAppend | client/src/pages/Register.jsx:37 | Joining two non-empty runs puts exactly one separator between them. |
| RegisterPage.RegistrationErrorSplits | client/src/pages/Register.jsx:36-38 | For a JSON object body, the error is the error of its first fields and the error of its remaining fields, with one space between. So each field's messages appear in field order. |
| RegisterPage.RegistrationErrorOneField | client/src/pages/Register.jsx:36-38 | A body with one field listing messages shows those messages joined by single spaces. |
| RegisterPage.Register.constructor | client/src/pages/Register.jsx:8-16 | The form starts empty, with no error, not loading, and no request issued. |
| RegisterPage.Register.Valid | client/src/pages/Register.jsx:99 | Definition: the `maxLength={12}` bound. The Aadhaar text the form holds never exceeds 12 characters, and every method of the page keeps this. |
| RegisterPage.Register.Type | client/src/pages/Register.jsx:71-111 | The form holds what was typed, with the Aadhaar text cut at 12 characters as `maxLength` does. |
| RegisterPage.Register.HandleSubmit | client/src/pages/Register.jsx:19-43 | An Aadhaar text shorter than 12 characters gives "Aadhaar Number must be at least 12 digits." with no request and no navigation. Any other text, which then has exactly 12 characters, is posted unchanged to `/register/`. On success the page goes to `/login` with no error shown. On failure it shows the flattened server errors, or "Registration failed" without a body. Loading is false at the end. |
| RegisterPage.Register.Submit | client/src/pages/Register.jsx:62-113 | Pressing the button. When the browser's constraint validation fails, no submit event fires and nothing changes. Otherwise it does exactly what `handleSubmit` does: the length refusal, or the post with its outcome. |
| RegisterPage.SubmitTyped | client/src/pages/Register.jsx:19-113 | With a field left empty, or an address the browser rejects, nothing is sent, no error is shown, and the page stays. Otherwise a request is sent exactly when at least 12 characters were typed, and it carries the first 12. A shorter text shows the length error, with no request and no navigation. |
| DashboardPage.TransferError | client/src/pages/DashBoard.jsx:60 | Definition: the server's `error`, else "Transfer Failed". |
| DashboardPage.TransferErrorShowsServerError | client/src/pages/DashBoard.jsx:60 | A non-empty `error` string is shown verbatim. "Transfer Failed" is shown in four cases: no response arrived, the response has no body, the body is text, or `error` is absent or empty. |
| DashboardPage.TransferErrorOfObject | client/src/pages/DashBoard.jsx:60 | For a JSON object body such as the transfer view's `{"error": ...}`, a truthy `error` field is what is shown. A body without one, such as a serializer's field errors, shows "Transfer Failed". |
| DashboardPage.IsSender | client/src/pages/DashBoard.jsx:189 | Definition: the row's sender is the signed-in user. This is never so while the profile is null. |
| DashboardPage.RowFor | client/src/pages/DashBoard.jsx:189-196 | The arrow points out exactly when the row's sender is the signed-in user. The amount is the row's own. |
| DashboardPage.RowShowsCounterparty | client/src/pages/DashBoard.jsx:189-196 | A sent row shows the receiver with '-', and any other row the sender with '+'. For a row between two different users that involves the signed-in user, the name shown is never the user's own. |
| DashboardPage.ActivityFor | client/src/pages/DashBoard.jsx:187-199 | An empty list shows "No recent activity." Otherwise there is one row per transaction, in the server's order. A row the user sent shows the receiver with '-', and any other row shows the sender with '+', with the transaction's amount. On a row between two different users that involves the user, the name shown is never the user's own. |
| DashboardPage.Dashboard.constructor | client/src/pages/DashBoard.jsx:12-17 | No profile, no transactions, no users, an empty form, loading, no message. |
| DashboardPage.Dashboard.HandleLogout | client/src/pages/DashBoard.jsx:64-67 | All of storage is emptied and the page goes to `/login`. The page data is left as it was. |
| DashboardPage.Dashboard.FetchData | client/src/pages/DashBoard.jsx:29-44 | The three reads are issued. On success the profile, activity and user list are the answers. A 401 signs out as `handleLogout` does. Any other failure leaves the data and storage as they were. Loading is false at the end. |
| DashboardPage.Dashboard.Submit | client/src/pages/DashBoard.jsx:171-179 | Pressing PAY. When the browser's check of the `type="number"` amount fails, no submit event fires: no request, and the message, form and data are unchanged. Otherwise it does exactly what `handleTransfer` does, case for case. |
| DashboardPage.Dashboard.HandleTransfer | client/src/pages/DashBoard.jsx:48-62 | With no receiver chosen there is no request, and the message reads "Select a receiver." Otherwise the form is posted to `/transfer/`. A failed post shows the server's `error` or "Transfer Failed", and the form and data are kept. A successful post resets the form and fetches the profile and activity again. A good refetch replaces both with the answers and shows "Transfer Successful!". A failed refetch shows the error message and keeps the old data. |
| DashboardPage.Dashboard.ChooseTransfer | client/src/pages/DashBoard.jsx:172-178 | The form holds the chosen receiver and the typed amount. |
| DashboardPage.OpenDashboard | client/src/pages/DashBoard.jsx:28-46 | On mount, success shows the profile with storage kept. A 401 empties storage and goes to `/login`. Any other failure leaves no profile and storage untouched. Loading always ends. |
| DashboardPage.SubmitWithoutReceiver | client/src/pages/DashBoard.jsx:48-51 | Pressing PAY with no receiver never issues a request and keeps the typed amount. When the browser accepts the amount the message reads "Select a receiver.". When it does not, the message stays blank. |
| DashboardPage.TransferShowsServerBalance | client/src/pages/DashBoard.jsx:48-58 | After a successful transfer, the balance and activity shown are exactly the server's new answers, whatever was shown before. Nothing is computed locally. The form is reset and the success message is shown. An amount the browser refuses leaves the page as it was: the old balance and activity, no message, and the form as typed. |

## Left out

- The `api` HTTP client module is not part of this model. Its base URL, headers and any interceptor are not modelled; each request is recorded by method, path and body only.
- Concurrency: the row locks taken by `select_for_update`, and the completion order of the parallel `Promise.all` fetches, are not modelled. The atomic block is one all-or-nothing step, and the parallel fetches are one combined outcome.
- Database write failures after all checks have passed (the `except Exception` path reached from `save()` or `create()`) are not modelled. Only the failures the view's own lookups and checks raise are.
- Decimal amounts are integers. Serializer-level validation of the transfer body is one rejected/accepted outcome, because `TransferSerializer` is not defined in server/authentication/serializers.py.
- The transaction table's `id`, the username-to-user-id mapping, and the serializers' field selection are not modelled: rows name users by username.
- Ledger.Bank.Transfer: the bank invariant does not include that usernames are unique. `Queries.UserListEachOnce` takes uniqueness as its precondition instead.
- Queries.History: rows with equal timestamps may come back in any order from the database. The model fixes one order and proves only what every order shares: newest first and the same rows.
- Queries.UserList: Django sorts usernames by the database collation. The model uses code-point lexicographic order.
- RegisterPage.Register.HandleSubmit: the length check counts characters, while JavaScript's `.length` counts UTF-16 code units.
- RegisterPage.PassesConstraints: the browser's e-mail syntax check is not modelled. It arrives as a parameter, `emailWellFormed`, of the submit step.
- RegisterPage.Values: a text body is split into characters, while `Object.values` on a string splits it into UTF-16 code units.
- RegisterPage.RegistrationErrorSplits: stated only for bodies whose field names are distinct. A parsed JSON object never repeats a name, so no other body reaches the page.
- App.OnlyDashboardGated: the router's percent-decoding of pathnames and its case folding of non-ASCII letters are not modelled. The key folds ASCII capitals and drops trailing slashes only.
- DashboardPage.Dashboard.Submit: the browser's reading of the `type="number"` input is not modelled. Whether it holds unreadable text or a value off the default step of 1 arrives as a parameter, `amountValid`.
- DashboardPage.Dashboard.HandleTransfer: the message is cleared at the start of every submission (client/src/pages/DashBoard.jsx:50). That cleared value is visible only while a request is pending. The model's sequential step covers only the final message, so the clearing is not stated.
- DashboardPage.TransferShowsServerBalance: describes the balance the profile answer carries. As written, that answer has no `balance` field, and the page would show an empty balance.
- Page rendering, styling and animation (GSAP timelines) in client/src/pages/*.jsx and client/src/components/AuthLayout.jsx, including the eye-tracking arithmetic in floating point.
- server/authentication/utils.py, server/authentication/models.py and server/authentication/serializers.py: thin wrappers over the Fernet cipher library, ORM object creation and password hashing.
- server/authentication/urls.py: the server-side URL wiring is declarative.
- `console.error` logging in `checkAuth` is left out as output only.
