# Student records console: store slices, route guard and payment aggregation

This project models the logic of a browser console for a school's student and fee-payment
records. It covers three parts:

- **The three Redux store slices.**
  - `auth`: session flag, user, error message and a pending-login flag.
  - `students`: roster, search box text with its results, and the selected student.
  - `payments`: full list, selected timeframe with its filtered list, and one student's payment history.

  Each slice appears twice. `Reduce`/`Run` is the reducer on values, and the lemmas about
  action sequences are stated over it. A class (`AuthSlice`, `StudentSlice`, `PaymentSlice`)
  holds the record whose fields the reducers assign in place. Each reducer method may modify
  only the fields it writes, states their new values, and is tied to `Reduce`. Reducers that
  write a subset of the fields name those fields (`modifies this`loading, this`error`); the
  three auth reducers that assign all four fields use `modifies this`.
  The `login` thunk is `Auth.AuthSlice.Login`, and its decision step is `Auth.LoginActions`.
- **The application's route table.** `Routes.Resolve` maps a path and the session flag to a
  rendered page or a redirect. `Routes.Follow` follows redirects.
- **The payment dashboard's helpers.** These are the total of the listed payments, the
  payments of one calendar day and their amount, and the calendar's day-click rule.

Modules:

- `Records`: the record shapes.
- `JsString`: ECMAScript `trim`.
- `Auth`, `Students`, `Payments`: the three slices.
- `Routes`: the route table.
- `PaymentDashboard`: the dashboard helpers.

The mock-data queries (`searchStudents`, `getStudentById`, `getPaymentsByTimeframe`,
`getPaymentsByStudentId`, `authenticateUser`) live in `src/data/mockData.js`, and that file is
not part of this model. They are therefore parameters: every result about a reducer holds for
*any* query functions of the given types.

Some behaviour of the code worth knowing:

- The initial `filteredPayments` is the full mock list, although 'monthly' is selected
  (src/store/slices/paymentSlice.js:6-8). It equals the selected timeframe's list only if the
  monthly query returns the whole list (`Payments.InitialTimeframeConsistency`).
- A search query counts as empty when `query.trim()` is empty, so a whitespace-only query gives
  no results. The text itself is stored verbatim (src/store/slices/studentSlice.js:24-29).
- The profile page loads the selected student and that student's payments with two separate
  actions, one in each slice (src/pages/StudentProfile.jsx:28-29). The model keeps them as two
  reducers.
- `loginStart` sets `loading` before the credential check runs (src/store/slices/authSlice.js:15-18, 44).
  `Auth.LoginPendingState` describes that pending state.

## Model

| member | source | states |
|---|---|---|
| `JsString.TrimStart` | src/store/slices/studentSlice.js:25 | the result is a suffix of the input; everything removed is ECMAScript whitespace or a line terminator; the result does not start with one |
| `JsString.TrimEnd` | src/store/slices/studentSlice.js:25 | the result is a prefix of the input; everything removed is trimmable; the result does not end with a trimmable character |
| `JsString.Trim` | src/store/slices/studentSlice.js:25 | the result is what lies between the trimmable ends: a prefix of the start-trimmed suffix followed there only by trimmable characters; a non-empty result neither starts nor ends with a trimmable character |
| `JsString.TrimEmptyIffBlank` | src/store/slices/studentSlice.js:25 | `q.trim() === ''` holds exactly when every character of `q` is trimmable |
| `Auth.InitialState` | src/store/slices/authSlice.js:4-9 | the initial state is signed out and not loading, and both session invariants hold in it |
| `Auth.Reduce` | src/store/slices/authSlice.js:15-36 | the slice reducer: a login is pending exactly after `loginStart`, which keeps session and user; no action leaves an error while pending; session flag and user stay in step unless a `loginSuccess` carries no user |
| `Auth.LoginActions` | src/store/slices/authSlice.js:43-58 | `login` dispatches `loginStart`, then `loginSuccess` with the found user exactly when the credential check finds one, otherwise `loginFailure` with 'Invalid Employee ID or Password'; no success without a user |
| `Auth.InitialStateIsLoggedOut` | src/store/slices/authSlice.js:4-9 | the initial state is not authenticated, with no user, no error and not loading, and it satisfies both session invariants |
| `Auth.ReducerEffects` | src/store/slices/authSlice.js:15-36 | `loginStart` sets loading and clears the error and keeps the session and user; success gives authenticated, the payload user, no error, not loading; failure gives logged out, no user, the message, not loading; logout gives the initial state |
| `Auth.LogoutIdempotent` | src/store/slices/authSlice.js:31-36 | logout from any state yields the initial state, so a second logout changes nothing |
| `Auth.ReduceEstablishesNoErrorWhileLoading` | src/store/slices/authSlice.js:15-36 | after any single action, a pending login has no error |
| `Auth.RunKeepsNoErrorWhileLoading` | src/store/slices/authSlice.js:15-36 | "loading implies no error" holds after every sequence of actions |
| `Auth.RunKeepsSessionMatchesUser` | src/store/slices/authSlice.js:15-36 | if every `loginSuccess` payload is present, `isAuthenticated` holds exactly when a user is stored, after every sequence of actions |
| `Auth.AbsentSuccessPayloadBreaksSession` | src/store/slices/authSlice.js:19-24 | without the payload condition the invariant fails: `loginSuccess(null)` gives authenticated with no user |
| `Auth.LoginOutcome` | src/store/slices/authSlice.js:43-58 | after `login`, from any state: not loading; authenticated exactly when the credential check found a user; that user with no error on success; no user and exactly 'Invalid Employee ID or Password' on failure |
| `Auth.LoginPendingState` | src/store/slices/authSlice.js:44 | between dispatch and the credential check, the state is loading with no error, and session and user are unchanged |
| `Auth.FailedLoginsIndistinguishable` | src/store/slices/authSlice.js:48-56 | any two failed logins from the same state leave identical states, whatever made them fail |
| `Auth.AuthSlice.constructor` | src/store/slices/authSlice.js:4-9 | the record starts as the initial state |
| `Auth.AuthSlice.LoginStart` | src/store/slices/authSlice.js:15-18 | writes only `loading` (true) and `error` (none) |
| `Auth.AuthSlice.LoginSuccess` | src/store/slices/authSlice.js:19-24 | authenticated, user = payload, not loading, no error |
| `Auth.AuthSlice.LoginFailure` | src/store/slices/authSlice.js:25-30 | not authenticated, no user, not loading, error = payload |
| `Auth.AuthSlice.Logout` | src/store/slices/authSlice.js:31-36 | the record becomes exactly the initial state |
| `Auth.AuthSlice.Dispatch` | src/store/slices/authSlice.js:11-38 | dispatching an action changes the record as `Reduce` does |
| `Auth.AuthSlice.Login` | src/store/slices/authSlice.js:43-58 | dispatches `loginStart` then success or the fixed failure; the final record is `Run` over `LoginActions` and has the outcomes listed for `LoginOutcome` |
| `Students.InitialState` | src/store/slices/studentSlice.js:4-11 | the initial state holds the mock roster, selects nobody, and its empty query and results are consistent for any search function |
| `Students.Reduce` | src/store/slices/studentSlice.js:14-39 | the slice reducer: it never changes `loading` or `error`, and it keeps the stored results those of the stored query |
| `Students.SearchResultsFor` | src/store/slices/studentSlice.js:25-29 | no results for a blank query; otherwise the search over the untrimmed query |
| `Students.BlankQueryGivesNoResults` | src/store/slices/studentSlice.js:23-30 | a blank query, whitespace included, is stored verbatim and yields [] |
| `Students.ClearSearchIsEmptyQuery` | src/store/slices/studentSlice.js:23-34 | `clearSearch` yields the same state as `setSearchQuery('')` |
| `Students.SetSearchQueryIdempotent` | src/store/slices/studentSlice.js:23-30 | setting the same query twice equals setting it once |
| `Students.ReducerFrames` | src/store/slices/studentSlice.js:14-39 | no reducer touches `loading` or `error`; `setStudents` changes only the roster; only the two search reducers change query and results; only the two selection reducers change the selected student |
| `Students.RunKeepsLoadingAndError` | src/store/slices/studentSlice.js:4-39 | no sequence of actions ever changes `loading` or `error` |
| `Students.RunKeepsSearchConsistent` | src/store/slices/studentSlice.js:14-39 | if the stored results are those derived from the stored query, they stay so after every sequence of actions |
| `Students.InitialStateSearchConsistent` | src/store/slices/studentSlice.js:4-11 | the initial query '' and results [] are consistent |
| `Students.StudentSlice.constructor` | src/store/slices/studentSlice.js:4-11 | the record starts as the initial state over the mock roster |
| `Students.StudentSlice.SetStudents` | src/store/slices/studentSlice.js:17-19 | writes only `students` |
| `Students.StudentSlice.SetSelectedStudent` | src/store/slices/studentSlice.js:20-22 | writes only `selectedStudent`, to the payload |
| `Students.StudentSlice.SetSearchQuery` | src/store/slices/studentSlice.js:23-30 | writes only the query (verbatim) and results ([] when blank, else the search over the query) |
| `Students.StudentSlice.ClearSearch` | src/store/slices/studentSlice.js:31-34 | writes only query '' and results [] |
| `Students.StudentSlice.LoadStudentById` | src/store/slices/studentSlice.js:35-38 | writes only `selectedStudent`, to the lookup result (which may be absent) |
| `Students.StudentSlice.Dispatch` | src/store/slices/studentSlice.js:14-39 | dispatching an action changes the record as `Reduce` does |
| `Payments.InitialState` | src/store/slices/paymentSlice.js:4-11 | the initial state holds the mock payments, selects 'monthly' and no student history; its filtered list matches the selection exactly when the monthly query returns the whole mock list |
| `Payments.Reduce` | src/store/slices/paymentSlice.js:14-30 | the slice reducer: it never changes `loading` or `error`; `setTimeframe` makes the filtered list the selected timeframe's, and no action breaks that once it holds |
| `Payments.InitialTimeframeConsistency` | src/store/slices/paymentSlice.js:4-11 | initially 'monthly' is selected and the student history is []; the filtered list matches the selection only if the monthly query returns the whole mock list |
| `Payments.ReducerFrames` | src/store/slices/paymentSlice.js:14-30 | each reducer changes only its own fields; none touches `loading` or `error` |
| `Payments.SetTimeframeIdempotent` | src/store/slices/paymentSlice.js:20-23 | `setTimeframe(t)` makes the filtered list that of `t`; applying it twice equals applying it once |
| `Payments.SetPaymentsLeavesFilterStale` | src/store/slices/paymentSlice.js:17-19 | `setPayments` replaces only the full list; the selection and filtered list stay as they were |
| `Payments.RunKeepsTimeframeConsistent` | src/store/slices/paymentSlice.js:14-30 | once the filtered list matches the selected timeframe, it matches after every sequence of actions |
| `Payments.TimeframeConsistentAfterSelection` | src/store/slices/paymentSlice.js:14-30 | after any action sequence containing a `setTimeframe`, the filtered list matches the selection, from any start state |
| `Payments.RunKeepsLoadingAndError` | src/store/slices/paymentSlice.js:4-30 | no sequence of actions ever changes `loading` or `error` |
| `Payments.PaymentSlice.constructor` | src/store/slices/paymentSlice.js:4-11 | the record starts as the initial state over the mock payments |
| `Payments.PaymentSlice.SetPayments` | src/store/slices/paymentSlice.js:17-19 | writes only `payments` |
| `Payments.PaymentSlice.SetTimeframe` | src/store/slices/paymentSlice.js:20-23 | writes only the selection and the filtered list (the timeframe query's result) |
| `Payments.PaymentSlice.LoadPaymentsByStudentId` | src/store/slices/paymentSlice.js:24-26 | writes only `studentPayments`, to the per-student query's result |
| `Payments.PaymentSlice.ClearStudentPayments` | src/store/slices/paymentSlice.js:27-29 | writes only `studentPayments`, to [] |
| `Payments.PaymentSlice.Dispatch` | src/store/slices/paymentSlice.js:14-30 | dispatching an action changes the record as `Reduce` does |
| `Routes.Resolve` | src/App.jsx:22-42 | no protected page renders when signed out; the login page renders only when signed out; a page is inside `Layout` exactly when it is protected; redirects go only to /login, / or /dashboard; every unlisted path redirects to / |
| `Routes.Follow` | src/App.jsx:22-42 | following any number of redirects, no protected page is reached signed out, the login page only signed out, and a reached page is inside `Layout` exactly when protected |
| `Routes.SignedOutEntry` | src/App.jsx:22-29 | signed out, /login renders the login page outside `Layout` and / redirects to /login |
| `Routes.SignedOutProtectedRedirectsToLogin` | src/App.jsx:30-41 | signed out, /dashboard, /student/:id and /payments redirect to /login |
| `Routes.SignedInEntryRedirectsToDashboard` | src/App.jsx:22-29 | signed in, /login and / redirect to /dashboard |
| `Routes.SignedInRendersProtectedPage` | src/App.jsx:30-41 | signed in, each protected path renders its own page inside `Layout` |
| `Routes.SignedOutNeverSeesProtected` | src/App.jsx:22-42 | however many redirects are followed, a signed-out visitor is never shown a protected page |
| `Routes.SettlesWithinTwoRedirects` | src/App.jsx:22-42 | from any path, at most two redirects lead to a rendered page; signed out it is the login page; signed in it is never the login page, and an unlisted path lands on the dashboard |
| `Routes.TwoRedirectsNeeded` | src/App.jsx:42 | the bound of two is reached: an unlisted path has not settled after one redirect |
| `Routes.LogoutLeadsToLogin` | src/App.jsx:22-42 | after `logout`, from any session, every path ends on the login page |
| `PaymentDashboard.TotalAmount` | src/pages/PaymentDashboard.jsx:32 | `totalAmount`: the sum of the amounts, never negative when no amount is |
| `PaymentDashboard.TotalAmountEmpty` | src/pages/PaymentDashboard.jsx:32 | the total of no payments is 0 |
| `PaymentDashboard.TotalAmountAppend` | src/pages/PaymentDashboard.jsx:32 | the total of two lists placed end to end is the sum of their totals |
| `PaymentDashboard.PaymentsForDate` | src/pages/PaymentDashboard.jsx:40-44 | exactly the payments on the day: each result is on the day, each payment on the day occurs as often as in the input and no other occurs, and the result is a subsequence of the input (order kept) |
| `PaymentDashboard.DayAmount` | src/pages/PaymentDashboard.jsx:46-49 | `getDayAmount`: the total of the day's payments, between 0 and the whole total when no amount is negative |
| `PaymentDashboard.DayAmountAtMostTotal` | src/pages/PaymentDashboard.jsx:46-49 | with no negative amounts, the total of the day's filtered payments lies between 0 and the whole total |
| `PaymentDashboard.DayAmountPartitionsTotal` | src/pages/PaymentDashboard.jsx:46-49 | a day's amount plus the amount of the payments on other days is the total |
| `PaymentDashboard.HasPayments` | src/pages/PaymentDashboard.jsx:158-160 | `hasPayments` holds exactly when some payment in the list is on the day |
| `PaymentDashboard.DayFilterNonEmptyIff` | src/pages/PaymentDashboard.jsx:158-160 | the day's filtered list is non-empty exactly when some payment in the list is on that day |
| `PaymentDashboard.DayWithPaymentsHasPositiveAmount` | src/pages/PaymentDashboard.jsx:158-160 | with positive amounts, a day with payments has a positive amount |
| `PaymentDashboard.OnDayClick` | src/pages/PaymentDashboard.jsx:166 | the click handler yields the day exactly when some payment is on it, and no selection otherwise |
| `PaymentDashboard.ClickDay` | src/pages/PaymentDashboard.jsx:166-174 | clicking a day some payment is on selects it; a day without payments has a disabled button and the selection stays as it was |
| `PaymentDashboard.ClickDaySelection` | src/pages/PaymentDashboard.jsx:160-174 | clicking a day with payments selects it; a day without payments is disabled and leaves the selection unchanged; the handler yields the day exactly when it has payments |
| `PaymentDashboard.ClickKeepsSelectionMeaningful` | src/pages/PaymentDashboard.jsx:166-174 | for a fixed payment list, a selection that is empty or a day with payments stays so after any click |
| `PaymentDashboard.TransactionWord` | src/pages/PaymentDashboard.jsx:121 | the count label is "transaction" exactly when there is one payment, "transactions" otherwise |

## Left out

- Mock-data queries: `searchStudents`, `getStudentById`, `getPaymentsByTimeframe`, `getPaymentsByStudentId`, `authenticateUser` and `dashboardSummary` are in `src/data/mockData.js`, which is not part of this model. The first five are function parameters. `dashboardSummary` is only displayed.
- Timer and storage: the 500 ms `setTimeout` in `login`, the `localStorage` writes and removals, and `checkAuth`'s `JSON.parse` of the stored user are browser I/O. In `Auth.AuthSlice.Login` the two dispatches happen back to back. Other actions dispatched during the delay are covered by the `Run` lemmas, which hold for arbitrary action sequences.
- Store wiring: `src/store/store.js` only combines the three reducers, so each slice is modelled on its own.
- Timeframe payloads: `setTimeframe` takes a string in the source. The model uses a three-value type, because the dashboard dispatches only 'daily', 'weekly' and 'monthly' (src/pages/PaymentDashboard.jsx:96-99). Other strings are not modelled.
- Routing internals: react-router's matching is case-insensitive and ignores trailing slashes, and it handles URL decoding and `replace` history entries. The model compares exact, already-split segments.
- Dates: date-fns parsing, time zones, the fixed reference date, the month grid and weekday offsets are left out. A payment carries an abstract `Day` key, and `isSameDay` becomes equality of keys.
- Numbers: amounts are unbounded integers. JavaScript's floating-point addition above 2^53 is not modelled.
- Display-only values are floating point or foreign formatting: `Intl.NumberFormat` currency text, the "k" display `(dayAmount / 1000).toFixed(0)`, and the fee percentage on the profile page.
- Rendering: JSX, styling, icons, the list/calendar `viewMode` toggle, the login form and `Layout` are left out. The same goes for the dashboard's local `payments` state, which an effect fills with the timeframe query's result; the helpers take that list as a parameter.
- `PaymentDashboard.TransactionWord`: only the word after the count is modelled. Printing the number itself is formatting.
- Strings: `JsString` works on Unicode scalar values, and JavaScript strings are UTF-16 code units. The two agree on every character `trim` strips. Lone surrogates are not represented.
- Student fee status: the Paid/Partial/Unpaid relation to the fee amounts is a property of the mock records, which are not part of this model.
