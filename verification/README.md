# Donation admin: session guard, payments listing and delete flow

This project models the client-side core of the donation admin panel in Dafny:

- the **session guard** (`AuthContext`): the admin token in memory and in persistent storage, startup verification, login with its error classification, logout and `isAuthenticated`;
- the **Payments page controller** (`PaymentsPage`): six filter inputs, the pagination record, the query parameters of a list fetch and of the PDF export, Apply/Clear filters, Previous/Next, how a fetch result is reconciled, the "showing X to Y of Z" line and the Payment ID and Status cells;
- the **delete flow of the Dashboard** (`Dashboard`): which row is targeted, the id being deleted, the error line, and the cancel guard, together with the recent-payments ID cell;
- the **confirmation dialog** (`ConfirmModal`): its defaults and which callback each click reaches while it is open or busy.

Each page's state is an immutable record. On the Payments page and the Dashboard, each user event is a pure step function that returns the next state and the requests the event sends, in order. The session guard's steps return the next session, together with the login result (`AuthContext.Login`) and the token sent for verification at startup (`AuthContext.Mount`); its login and verify calls appear as the outcomes passed in. Every network call is an atomic outcome passed in: a payload on success, or a failure. The source re-fetches whenever `pagination.page` changes (Payments.jsx:22-25). That render side-effect is modelled as an explicit step, `PaymentsPage.WithPageEffect`, which appends one more list request whenever an event changes the page. `PaymentsPage.Dispatch` is one event followed by the render it causes.

Files: `common.dfy` (optional values, JavaScript string truthiness, `substring(0, n)`, upper-casing), `payment_record.dfy`, `confirm_modal.dfy`, `auth_context.dfy`, `payments_page.dfy`, `dashboard.dfy`.

Behaviour of the code worth knowing:

- Filter edits are not debounced. An edit changes only the input and sends nothing by itself (`PaymentsPage.EditFilterOnlyBuffers`). The next request of any kind carries the edited inputs: Apply, Previous/Next, a reply that changes the page, or Export (`PaymentsPage.EditReachesNextRequests`).
- Responses carry no generation counter. Each settled fetch is applied as it comes.
- No page is decremented after a delete. The Dashboard only refetches its statistics.
- The export is a server request carrying the filters. There is no local tabular export and no guard against two exports at once.
- `isAuthenticated` is `!!token`. It is already true while a stored token is still being verified (`AuthContext.AuthenticatedWhileVerifying`).
- Login sets the token in memory before persisting it. If the storage write throws, the login reports failure while the new token stays in memory and the stored value is unchanged (`AuthContext.UnstoredLoginDesyncs`).
- A Delete button is disabled only for the row being deleted. A click on another row's button while a delete is in flight therefore retargets the dialog. In the page itself the dialog's overlay covers the rows.
- On page 1, Apply filters sends one request. On any other page it sends two identical requests: one from the handler and one from the page effect (`PaymentsPage.ApplyFiltersResetsPage`).
- If a successful fetch reports a different page from the current page, the page effect fetches once more (`PaymentsPage.FetchSettledStep`).

## Model

| member | source | states |
|---|---|---|
| `Common.ToUpper` | src/pages/Payments.jsx:338 | upper-casing keeps the length and maps each ASCII letter `a`..`z` to its upper-case form, leaving every other character as it is, so the result has no lower-case ASCII letters |
| `Common.ToUpperIdempotent` | src/pages/Payments.jsx:338 | upper-casing an upper-cased status changes nothing |
| `Common.Prefix` | src/pages/Payments.jsx:308-309 | `substring(0, n)` is a prefix of length `min(n, length)`, and it is empty only for an empty string or `n = 0` |
| `ConfirmModal.Render` | src/components/ConfirmModal.jsx:5-53 | nothing renders iff `open` is false; both buttons are enabled iff not loading; the confirm label is `Processing...` while loading, else the confirm text; omitted labels default to `Confirm` and `Cancel` |
| `ConfirmModal.Fire` | src/components/ConfirmModal.jsx:12-53 | a closed dialog fires nothing; confirm fires iff open and not loading; cancel fires iff open and either the overlay was clicked or the Cancel button was clicked while not loading |
| `ConfirmModal.OverlayCancelsWhileLoading` | src/components/ConfirmModal.jsx:20-25 | a busy dialog still hands an overlay click to `onCancel`; only its two buttons are blocked |
| `ConfirmModal.DefaultsRender` | src/components/ConfirmModal.jsx:5-10 | with only `open` given, the dialog shows `Confirm`/`Cancel`, is not busy and is not styled as dangerous |
| `AuthContext.Mount` | src/context/AuthContext.jsx:15-25 | the token starts as the stored value; verification is requested, with that token, iff it is truthy; `loading` stays true exactly in that case |
| `AuthContext.Verify` | src/context/AuthContext.jsx:27-42 | `loading` ends false on every path; the token and stored value are kept iff the reply says authenticated, otherwise both are cleared |
| `AuthContext.Logout` | src/context/AuthContext.jsx:79-82 | both the in-memory and the stored token are cleared; the session is unauthenticated afterwards; `loading` is untouched |
| `AuthContext.LogoutIdempotent` | src/context/AuthContext.jsx:79-82 | logging out twice equals logging out once |
| `AuthContext.ClassifyLoginError` | src/context/AuthContext.jsx:57-75 | status 500 gives the deployment message, 404 the route-not-found message; otherwise the first non-empty of the server's message, the error's message and `Login failed`; never empty |
| `AuthContext.Login` | src/context/AuthContext.jsx:44-77 | a reply sets the in-memory and stored token to the returned token and reports success; if storing the token throws, the token is set in memory only and the storage error's message (else `Login failed`) is reported; a failed call leaves the session exactly as it was; every failure reports a non-empty message |
| `AuthContext.UnstoredLoginDesyncs` | src/context/AuthContext.jsx:50-54 | a storage write that throws during login leaves the session authenticated in memory, out of step with storage, while the login reports failure |
| `AuthContext.RunKeepsSynced` | src/context/AuthContext.jsx:15-82 | over any sequence of verifications, logins and logouts in which no storage write throws, the in-memory token always equals the stored one |
| `AuthContext.MountIsSynced` | src/context/AuthContext.jsx:15-16 | every session reached from startup without a throwing storage write keeps the two tokens equal |
| `AuthContext.NoAuthWithoutLogin` | src/context/AuthContext.jsx:79-89 | once unauthenticated, no sequence of verifications, logouts and logins whose call failed makes the session authenticated again |
| `AuthContext.AuthenticatedByTokenAlone` | src/context/AuthContext.jsx:89 | `isAuthenticated` holds iff the token is present and non-empty; `loading` does not affect it; it is false after logout |
| `AuthContext.AuthenticatedWhileVerifying` | src/context/AuthContext.jsx:84-90 | with a stored token, the session reports authenticated while `loading` is still true |
| `PaymentsPage.PutFilters` | src/pages/Payments.jsx:44-49 | a filter's key is added iff its value is non-empty, with the value unchanged; no other key is added and existing keys are kept |
| `PaymentsPage.ListParams` | src/pages/Payments.jsx:27-49 | `page` and `limit` are always sent; a missing or zero page override falls back to the current page; each filter of the override (or of the inputs) is present iff non-empty, with its value; no other key appears |
| `PaymentsPage.ExportParams` | src/pages/Payments.jsx:87-95 | exactly the non-empty filters with their values, never `page` or `limit` |
| `PaymentsPage.ListIsExportPlusPaging` | src/pages/Payments.jsx:30-95 | a list request is the export request plus `page` and `limit`, and removing those two gives the export request back |
| `PaymentsPage.Reconcile` | src/pages/Payments.jsx:27-61 | `loading` ends false; a success takes records and pagination verbatim from the reply; a failure keeps both; filters never change |
| `PaymentsPage.Mount` | src/pages/Payments.jsx:5-25 | the page starts loading on page 1 of 10 rows with empty filters and no records, with the page in range, and sends one fetch carrying only `page = 1` and `limit = 10` |
| `PaymentsPage.Handle` | src/pages/Payments.jsx:64-373 | only a settled fetch replaces the records or any pagination field other than the page; only an input edit or Clear changes the filters; Apply and Clear go to page 1, set loading and send one list fetch; Export changes nothing and sends the export request; Previous/Next move the page by at most one in their own direction and send nothing themselves |
| `PaymentsPage.Pager` | src/pages/Payments.jsx:248-376 | the pagination bar is absent iff loading or there are no records; when shown it carries the range line, Previous is enabled iff the page is not 1, and Next is enabled iff the page is below the total page count |
| `PaymentsPage.WithPageEffect` | src/pages/Payments.jsx:22-25 | a step that keeps the page adds nothing; a step that changes it sets `loading` and appends one fetch for the new page with the current inputs |
| `PaymentsPage.EditFilterOnlyBuffers` | src/pages/Payments.jsx:153-220 | typing in an input sends nothing and changes only that input: records, `loading` and pagination are all kept |
| `PaymentsPage.EditReachesNextRequests` | src/pages/Payments.jsx:22-95 | right after an edit, an export and a clickable Next each send one request carrying the edited value (or omitting the key when it was emptied), since every fetch reads the current inputs rather than the last applied ones |
| `PaymentsPage.ApplyFiltersResetsPage` | src/pages/Payments.jsx:64-67 | Apply goes to page 1 and keeps limit, total, total pages, inputs and records; each request it causes is for page 1 with the current inputs |
| `PaymentsPage.ClearFiltersResets` | src/pages/Payments.jsx:69-85 | Clear empties all six inputs and goes to page 1; each request it causes carries only `page = 1` and the limit |
| `PaymentsPage.NoFiltersAddsNothing` | src/pages/Payments.jsx:44-49 | with every input empty, no filter parameter is sent |
| `PaymentsPage.PreviousPageStep` | src/pages/Payments.jsx:359-367 | Previous is disabled iff on page 1, and absent while the table is hidden; a click that gets through moves back exactly one page, changes nothing else and fetches that page |
| `PaymentsPage.NextPageStep` | src/pages/Payments.jsx:368-376 | Next is disabled iff `page >= totalPages`, and absent while the table is hidden; a click that gets through moves forward exactly one page, changes nothing else and fetches that page |
| `PaymentsPage.FetchSettledStep` | src/pages/Payments.jsx:22-61 | a failed fetch changes only `loading`; a success installs the reply verbatim and fetches again only if the reply's page differs |
| `PaymentsPage.ExportLeavesState` | src/pages/Payments.jsx:87-100 | exporting changes no state and sends one export request with the current filters |
| `PaymentsPage.DispatchKeepsPageInRange` | src/pages/Payments.jsx:359-376 | every event keeps `1 <= page <= max(totalPages, 1)`, provided the server's reply does |
| `PaymentsPage.RunKeepsPageInRange` | src/pages/Payments.jsx:359-376 | from a page in range, no sequence of events ever takes the page below 1 or past the last page, provided the server's replies stay in range |
| `PaymentsPage.RunFromMountInRange` | src/pages/Payments.jsx:5-25 | from the page's real starting state, every run of events keeps the page in range, provided the server's replies stay in range |
| `PaymentsPage.PagingKeepsFilters` | src/pages/Payments.jsx:359-376 | any sequence of Previous/Next clicks leaves the filters unchanged |
| `PaymentsPage.RangeText` | src/pages/Payments.jsx:353-356 | the start index is `(page - 1) * limit + 1`, at least 1 when the page is; the end index is the smaller of `page * limit` and the total; the total is shown as given |
| `PaymentsPage.RangeCountsPageRows` | src/pages/Payments.jsx:353-356 | when the page starts inside the result set, `end - start + 1` is a full page, or on the last page the remainder |
| `PaymentsPage.PaymentIdCell` | src/pages/Payments.jsx:307-310 | the first at most 20 characters of the payment id if that is non-empty, else of the order id, else `-`; never empty |
| `PaymentsPage.StatusCell` | src/pages/Payments.jsx:338 | the status upper-cased, with the same length, or empty when the status is missing |
| `Dashboard.ModalProps` | src/pages/Dashboard.jsx:345-359 | the dialog is open iff there is a target, busy iff a delete is in flight, and always styled as dangerous |
| `Dashboard.RowDeleteButton` | src/pages/Dashboard.jsx:329-336 | a row's button is disabled iff its id is the one being deleted, and then reads `Deleting...`, else `Delete` |
| `Dashboard.StartDeleteDisablesOnlyTarget` | src/pages/Dashboard.jsx:331-335 | once a delete has started, the target's row button is disabled and reads `Deleting...`, and every row with another id stays enabled |
| `Dashboard.SelectRow` | src/pages/Dashboard.jsx:329-336 | a row's Delete button is disabled iff its id is being deleted; an enabled click makes that row the target and changes nothing else |
| `Dashboard.StartDelete` | src/pages/Dashboard.jsx:44-49 | with no target nothing changes and nothing is sent; otherwise the error is cleared, the target's id is marked as in flight, and one delete for that id is sent |
| `Dashboard.FinishDelete` | src/pages/Dashboard.jsx:49-57 | nothing is in flight afterwards; success refetches the dashboard and clears the target; failure keeps the target and sets the retry message |
| `Dashboard.CancelDelete` | src/pages/Dashboard.jsx:355-357 | cancel clears the target iff no delete is in flight, and otherwise changes nothing |
| `Dashboard.ClickDialog` | src/pages/Dashboard.jsx:345-357 | a closed dialog or a delete in flight makes every click a no-op; otherwise Confirm starts the delete of the target, and Cancel or the overlay closes the dialog; a delete request is only ever for the target of an open, idle dialog |
| `Dashboard.ClickWhileInFlight` | src/pages/Dashboard.jsx:345-357 | while a delete is in flight, no click on the dialog, overlay included, changes anything or sends anything |
| `Dashboard.ConfirmWithoutTarget` | src/pages/Dashboard.jsx:44-45 | confirming without a target is a no-op with no request |
| `Dashboard.ConfirmThenSuccess` | src/pages/Dashboard.jsx:44-57 | a confirmed delete that succeeds ends closed, with nothing in flight and no error |
| `Dashboard.ConfirmThenFailure` | src/pages/Dashboard.jsx:44-57 | a confirmed delete that fails keeps the same target open, with nothing in flight and the retry message |
| `Dashboard.ApplyKeepsDialogHeldOpen` | src/pages/Dashboard.jsx:44-57 | every event keeps "a delete in flight implies the dialog is open" |
| `Dashboard.RunKeepsDialogHeldOpen` | src/pages/Dashboard.jsx:44-57 | over any sequence of row clicks, dialog clicks and settled deletes, the dialog stays open whenever a delete is in flight |
| `Dashboard.RunEndingInSettleIsIdle` | src/pages/Dashboard.jsx:55-57 | whatever came before, `deletingId` is empty once a delete settles |
| `Dashboard.RecentIdCell` | src/pages/Dashboard.jsx:295-300 | the first 20 characters of the payment id plus `...` if that id is non-empty, else the same for the order id, else `-` |
| `Dashboard.IdCellsAgree` | src/pages/Dashboard.jsx:295-300 | the Dashboard's ID cell is the Payments page's ID cell plus `...` when there is an identifier, and both are `-` otherwise |

## Left out

- HTTP transport: the API client's configuration, headers and status handling are not part of this model. Every call is an outcome parameter.
- Persistent storage: it is modelled as one optional stored value under the token key.
- The PDF download (blob, object URL, anchor click) is I/O. Only the export request's parameters are modelled. The failure alert changes no state.
- Currency, date and chart-tick formatting use floating point and locale APIs, so they are left out.
- React scheduling: re-render timing, effect dependency semantics, and the interleaving of overlapping in-flight fetches. Each fetch is one atomic step, and races are not modelled.
- The Dashboard's statistics, chart data and its own `loading` flag: the refetch after a delete appears only as a `FetchDashboard` request.
- The dialog's title and description text, the status colour classes and the stats cards: these are presentation only.
- `src/pages/Login.jsx` (form presentation and navigation) and `src/components/Layout.jsx` (navigation chrome, logout button) are not part of this model. Neither is the `useAuth` provider check.
- `AuthContext.Login`: a reply without a `token` field is not modelled. The source would keep `undefined` in memory and store the text "undefined".
- `PaymentsPage.StatusCell`: upper-casing is modelled for ASCII letters only. Unicode case mappings such as one character becoming two are not modelled.
- `Common.ToUpper`: only `a`..`z` are upper-cased. JavaScript's `toUpperCase` also maps other letters (`é` to `É`) and can lengthen a string (`ß` to `SS`). The model keeps the length and leaves those characters unchanged.
- `Common.Prefix`: strings are modelled as sequences of Unicode scalar values, while `substring(0, 20)` and `.length` count UTF-16 code units. On identifiers with characters outside the Basic Multilingual Plane, `PaymentsPage.PaymentIdCell` and `Dashboard.RecentIdCell` may therefore keep more characters than the page does.
- `AuthContext.RunKeepsSynced`: the in-memory and stored token stay equal only while no storage write during login throws. `AuthContext.UnstoredLoginDesyncs` shows the throwing case breaks it.
- `AuthContext.Mount`, `AuthContext.Logout`: reading and removing the stored token are assumed never to throw.
- `PaymentsPage.RunKeepsPageInRange`: the page stays in range only if the server's replies keep it in range. The server is authoritative for pagination.
- Values that are not strings: identifiers, messages and filter inputs are modelled as strings or missing values. A number or object in those places, which would change JavaScript truthiness or make `substring` throw, is not modelled.
