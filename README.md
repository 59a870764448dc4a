# Poetry site front end: a Dafny model

This project models the client-side logic of a poetry site's React front end. It is written in Dafny and covers:

- the shared HTTP client, whose interceptor attaches the stored credential as a bearer header;
- the admin route gate;
- the login, registration and newsletter forms;
- the three admin list pages (poems, users, subscribers) with their search boxes;
- the poem authoring form, with its draft kept in `localStorage`, edit-mode seeding, tag parsing and word count;
- the older single-page admin panel, with its dashboard statistics and quick-add form.

The browser is modelled as one object, `Browser.Env`. It holds `localStorage` as a map from keys to values, and an ordered trace of every outward effect: storage writes and removals, requests, navigations, the auth context's `login`, toasts, and the poem form's `onSubmit`.

Network responses are not computed. Each page method receives the outcome of its request as a parameter: `Ok(status, data)` or `Failed`. `Failed` also covers a thrown exception. axios keeps its default status check throughout, so only a 2xx answer resolves and every other status throws. Pages that ignore the status receive `Ok` only for such a resolved answer. The admin panel's quick-add form reads the status, and it applies the check itself (`Records.Resolved`), so any other status is handled there as a throw. The clock appears only as the timestamp string passed to the admin panel's quick-add form.

Pages whose handlers change component state are classes:
- the fields are the `useState` variables;
- methods change them under `modifies` clauses;
- each method's `ensures` gives the whole new state and the effects appended to the trace.

What those methods compute is specified by pure functions, and the properties are proved about those functions:
- `Login.LoginErrors`, `Register.RegisterErrors`;
- `AdminPoems.FilterPoems`, `AdminUsers.Normalise`;
- `PoemForm.ParseTags`, `PoemForm.MakePayload`, `PoemForm.Seed`;
- `AdminPanel.DeriveStats`.

String handling follows JavaScript, restricted to ASCII:
- `Text.Lower` is `toLowerCase`;
- `Text.Includes` is `includes`;
- `Text.Split` is `split` on one character;
- `Text.Trim` is `trim`;
- `Text.SplitOnSpaceRuns` is `split(/\s+/)`.

The lemmas about them are `Text.IncludesIffOccurs`, which ties `Includes` to an occurrence at some index, `Text.IncludesChar`, `Text.JoinSplit`, `Text.SplitCount`, `Text.TrimAfterSpace` and the run-count lemmas.

Module layout: `seqs.dfy` holds order-preserving filtering and `text.dfy` the string operations. `records.dfy` has the data records, `api.dfy` the client, and `browser.dfy` the environment. `list_view.dfy` holds the matching and rendering shared by the three admin list pages. After that there is one file per page or component.

## Model

| member | source | states |
|---|---|---|
| Api.WithBearer | src/api/api.js:9-13 | With a non-empty stored token, `Authorization` is `"Bearer " + token`. With no token or an empty one, the headers are returned unchanged. No other header changes, and the key set grows by at most `Authorization`. |
| Api.WithBearerIdempotent | src/api/api.js:8-16 | Intercepting an already-intercepted request with the same token changes nothing. |
| Api.Intercept | src/api/api.js:8-16 | The interceptor returns the very config it was given. Its headers become `WithBearer` of the old headers, and method, URL and body are unchanged. |
| Api.HelperRoutes | src/api/api.js:7-28 | Each of the six helpers leaves the shared client with the stored credential as `Authorization: Bearer …` when there is one and no headers otherwise. `registerUser` and `loginUser` POST the caller's data to `/auth/register` and `/auth/login`. `fetchPoems`, `fetchPoemById`, `getProfile` and `getSubscriptionStatus` are bodiless GETs of `/poems`, `/poems/{id}`, `/users/me` and `/subscribe/status`. |
| Api.FetchPoemByIdInjective | src/api/api.js:24 | Different ids are fetched from different URLs. |
| Browser.Env.Send | src/api/api.js:3-16 | A request through the shared client is recorded exactly as the interceptor leaves it for the token stored at send time. Storage is untouched. |
| ProtectedRoute.Gate | src/components/ProtectedRoute.jsx:4-16 | Nothing is rendered iff loading. Redirect to `/login` with replace iff not loading and no user. Redirect to `/` with replace iff a user whose role is not `"admin"`. The outlet iff an admin. The four outcomes are exclusive and cover every case. |
| ProtectedRoute.GateSeesOnlyRole | src/components/ProtectedRoute.jsx:10-13 | Two users with the same role get the same decision. |
| AdminPoems.FilterPoems | src/pages/admin/Poems.jsx:43-52 | The result is an order-preserving subsequence of `poems`. A poem is in it iff its lower-cased title or author includes the lower-cased query. Each kept poem keeps its multiplicity. |
| AdminPoems.EmptySearchKeepsAll | src/pages/admin/Poems.jsx:44-49 | The empty query gives back `poems` itself. |
| AdminPoems.SearchIgnoresCase | src/pages/admin/Poems.jsx:44-49 | Queries that lower-case alike select the same list. |
| AdminPoems.PoemsView.SetSearch | src/pages/admin/Poems.jsx:43-52 | After typing, `filtered` is `FilterPoems(poems, query)`. |
| AdminPoems.PoemsView.FetchPoems | src/pages/admin/Poems.jsx:43-65 | A GET through the shared client. Success sets `poems` to the body, and the search effect that the change re-runs leaves `filtered` as the current query applied to it. Failure leaves both and adds the "Failed to load poems" toast. Loading always ends false. The settled state `filtered == FilterPoems(poems, search)` is kept. |
| AdminPoems.PoemsView.HandleDelete | src/pages/admin/Poems.jsx:67-81 | A DELETE of `/poems/{id}` with an explicit bearer header, `"Bearer null"` when nothing is stored. Success toasts and then fetches the whole list again, with no local removal, after which `filtered` is the current query applied to the refetched list. Failure changes nothing but the "Delete failed" toast. The settled state is kept. |
| AdminPoems.PoemsView.Screen | src/pages/admin/Poems.jsx:83-286 | The skeleton iff loading. Otherwise the total shown is `poems.length`, and "No poems found" appears iff `filtered` is empty. |
| AdminUsers.FilterUsers | src/pages/admin/Users.jsx:21-30 | An order-preserving subsequence with exact multiplicities. A user is kept iff the lower-cased name or email includes the lower-cased query, counting only the fields that exist. |
| AdminUsers.NamelessNeverListed | src/pages/admin/Users.jsx:26-27 | A user with neither name nor email is never listed. |
| AdminUsers.EmptySearchKeepsIdentified | src/pages/admin/Users.jsx:21-30 | The empty query keeps exactly the users with a name or an email, in order. |
| AdminUsers.Normalise | src/pages/admin/Users.jsx:38-42 | The body if it is an array. Otherwise its `users` field if that is an array. Otherwise `[]`. |
| AdminUsers.NormaliseShapesAgree | src/pages/admin/Users.jsx:38-42 | A bare array and an object wrapping the same array under `users` give the same list. |
| AdminUsers.UsersView.FetchUsers | src/pages/admin/Users.jsx:21-53 | A GET of `/users`. Success sets `users` to the normalised list, and the search effect it re-runs sets `filtered` to `FilterUsers(users, search)`. Failure sets both to `[]`. Loading ends false, and the settled state `filtered == FilterUsers(users, search)` holds. |
| AdminUsers.NamelessUserNotShown | src/pages/admin/Users.jsx:21-53 | After fetching one user with neither name nor email, the page counts one user, lists none and shows the empty notice. |
| AdminUsers.UsersView.SetSearch | src/pages/admin/Users.jsx:21-30 | After typing, `filtered` is `FilterUsers(users, query)`. |
| AdminUsers.UsersView.Screen | src/pages/admin/Users.jsx:120-126 | The total shown is `users.length`. The table instead of the empty notice iff `filtered` is non-empty. |
| AdminSubscribers.FilterSubscribers | src/pages/admin/Subscribers.jsx:21-24 | An order-preserving subsequence with exact multiplicities. A subscriber is kept iff it has an email whose lower-cased form includes the lower-cased query. |
| AdminSubscribers.EmptySearchKeepsThoseWithEmail | src/pages/admin/Subscribers.jsx:23 | The empty query keeps exactly the subscribers with an email, so one without is never listed. |
| AdminSubscribers.Normalise | src/pages/admin/Subscribers.jsx:31 | An array body is kept and anything else becomes `[]`. |
| AdminSubscribers.SubscribersView.FetchSubscribers | src/pages/admin/Subscribers.jsx:21-41 | A GET of `/subscribe`. Success sets `subscribers` to the normalised body, and the search effect it re-runs sets `filtered` to `FilterSubscribers(subscribers, search)`. Failure sets both to `[]`. Loading ends false, and the settled state holds. |
| AdminSubscribers.SubscribersView.SetSearch | src/pages/admin/Subscribers.jsx:21-24 | After typing, `filtered` is `FilterSubscribers(subscribers, query)`. |
| AdminSubscribers.SubscribersView.Screen | src/pages/admin/Subscribers.jsx:110-116 | The total shown is `subscribers.length`. The table iff `filtered` is non-empty. |
| ListView.FieldContainsEmpty | src/pages/admin/Users.jsx:26-27 | An optional field matches the empty query iff it exists. |
| Login.LoginErrors | src/pages/Login.jsx:21-26 | An email error iff the email has no `@`. A password error iff the password is shorter than 6. No other keys. The messages are the page's own. |
| Login.LoginValidIff | src/pages/Login.jsx:28 | Validation passes iff the email contains `@` and the password has at least 6 characters. |
| Login.BothLoginErrors | src/pages/Login.jsx:22-25 | The checks are independent: failing both gives both messages. |
| Login.LoginPage.Validate | src/pages/Login.jsx:21-29 | The shown errors become `LoginErrors(email, password)`, and the result is true iff they are empty. |
| Login.LoginPage.HandleSubmit | src/pages/Login.jsx:32-52 | An invalid form sends nothing. A valid one posts the credentials to `/auth/login`. Success then, in this order: stores `token`, stores `user`, calls `login`, navigates to `/poems`. Failure sets exactly `{general: "Invalid email or password"}`. Loading ends false. |
| Register.RegisterErrors | src/pages/Register.jsx:23-37 | A name error iff the name is shorter than 3. An email error iff there is no `@`. A password error iff the password is shorter than 6. No other keys. |
| Register.RegisterValidIff | src/pages/Register.jsx:38-39 | Validation passes iff all three checks pass. |
| Register.RegisterPage.Validate | src/pages/Register.jsx:23-40 | The shown errors become `RegisterErrors(name, email, password)`, and the result is true iff they are empty. |
| Register.RegisterPage.HandleSubmit | src/pages/Register.jsx:44-62 | An invalid form sends nothing. A valid one posts to `/auth/register`. Success navigates to `/login` with the success message. Failure sets only the general error. Storage is never touched. |
| Newsletter.NewsletterSignup.HandleSubscribe | src/pages/NewsletterSignup.jsx:12-30 | An empty address sets "Please enter a valid email." and sends nothing. Any other text is posted to `/subscribe`. Success shows the server's message and clears the box. Failure shows the fixed message and keeps the address. Loading ends false after any attempt that was sent. |
| Newsletter.UncheckedAddressIsPosted | src/pages/NewsletterSignup.jsx:13-21 | `"not-an-email"` passes the local check and is posted exactly once. |
| PoemForm.Seed | src/components/admin/forms/PoemForm.jsx:40-55 | Missing text fields become `""`. Tags are joined with `", "`. A missing or empty status becomes `"published"`. `featured` is true only when the poem says true. |
| PoemForm.ParseTags | src/components/admin/forms/PoemForm.jsx:93-98 | Empty tag text gives no tags. Otherwise there is one piece per comma plus one, empty pieces kept, each piece trimmed and comma-free. |
| PoemForm.ParseTagsPieces | src/components/admin/forms/PoemForm.jsx:93-98 | For non-empty tag text, piece k of the result is the trim of the k-th part of the text cut at its commas: the parts are comma-free, as many as the pieces, and joined by commas give the text back. |
| PoemForm.TagsRoundTrip | src/components/admin/forms/PoemForm.jsx:49-98 | For tags with no comma and no surrounding white space, other than the single empty tag, joining with `", "` and parsing gives the same tags. |
| PoemForm.SingleEmptyTagLost | src/components/admin/forms/PoemForm.jsx:49-98 | The excluded case: `[""]` joins to empty text and parses to no tags. |
| PoemForm.MakePayload | src/components/admin/forms/PoemForm.jsx:89-99 | Every form field passes through with tags parsed. `sendNotification` is present iff in add mode, and then carries the form's choice. |
| PoemForm.ModesDifferOnlyInNotification | src/components/admin/forms/PoemForm.jsx:89-99 | The add and edit payloads are equal once the notification flag is dropped. |
| PoemForm.UnchangedEditRoundTrip | src/components/admin/forms/PoemForm.jsx:40-99 | Seeding from a fully specified poem and submitting without changes sends every field back as it came, tags included. |
| PoemForm.WordCountCountsRuns | src/components/admin/forms/PoemForm.jsx:75 | The word count equals the number of maximal runs of non-white characters. |
| PoemForm.WordCountZeroIffBlank | src/components/admin/forms/PoemForm.jsx:75 | The word count is 0 iff the content is empty or all white space. |
| PoemForm.ButtonWeakerThanCheck | src/components/admin/forms/PoemForm.jsx:81-382 | A complete form never disables the button when not loading. But a form with content and no title enables it, so submit re-checks. |
| PoemForm.PoemFormView.LoadDraft | src/components/admin/forms/PoemForm.jsx:30-37 | In add mode a stored draft replaces the form. Edit mode, or no draft, leaves the form alone. |
| PoemForm.PoemFormView.SeedEdit | src/components/admin/forms/PoemForm.jsx:40-55 | In edit mode with a poem, the form becomes `Seed(poem)`. Otherwise it is unchanged. |
| PoemForm.PoemFormView.Autosave | src/components/admin/forms/PoemForm.jsx:58-62 | In add mode the form is written under `poem_draft`. In edit mode storage and trace are untouched. |
| PoemForm.PoemFormView.Mount | src/components/admin/forms/PoemForm.jsx:30-62 | Add mode: the stored draft, if any, becomes the form, and the draft slot then holds the form, the one write the trace records. Edit mode: the form is the seeded poem and storage is untouched. |
| PoemForm.PoemFormView.Change | src/components/admin/forms/PoemForm.jsx:58-62 | Every change is written to the draft in add mode only. |
| PoemForm.PoemFormView.HandleSubmit | src/components/admin/forms/PoemForm.jsx:78-130 | An incomplete form gets the "Please complete all * fields" toast and no `onSubmit`. Otherwise the payload is submitted and then one of: the failure toast; the edit success toast; or the add success toast followed by the draft removal. A successful add resets the form to its defaults and sets `sendNotification` to true. Edit mode and failures keep the form and storage. Loading ends false. |
| PoemForm.PoemFormView.SubmitAndSettle | src/components/admin/forms/PoemForm.jsx:58-123 | Counting the autosave the reset triggers, a successful add leaves the default form under `poem_draft`, resets the notification choice, and appends the submit effects and then that write to the trace. An incomplete form only raises the error toast. A failure or an edit leaves form, choice and storage and appends only the submit effects. Loading ends false whenever the form was complete. |
| PoemForm.ReopenRestoresDraft | src/components/admin/forms/PoemForm.jsx:30-62 | A form typed in add mode and left unsubmitted comes back verbatim on the next mount. |
| PoemForm.ReopenAfterPublish | src/components/admin/forms/PoemForm.jsx:30-123 | After a successful publish, the next mount shows the default form. |
| PoemForm.EditIgnoresDraft | src/components/admin/forms/PoemForm.jsx:30-62 | In edit mode, whatever the draft slot holds, the form opens on the seeded poem and storage is unchanged. |
| AdminPanel.AccessAgreesWithGate | src/pages/AdminPanel.jsx:26-28 | "Access Denied" is shown iff the route gate, once loaded, would not render the outlet, that is unless a user with role `"admin"` is present. |
| AdminPanel.Recent | src/pages/AdminPanel.jsx:53 | `slice(-3)`: the last min(3, n) poems, in their order. |
| AdminPanel.DeriveStats | src/pages/AdminPanel.jsx:49-54 | `poems`, `users` and `email` are the lengths of the three bodies, and `recentPoems` is `Recent(poems)`. |
| AdminPanel.RecentWithinCount | src/pages/AdminPanel.jsx:50-53 | The recent poems number at most the poem count and are all among the fetched poems. |
| AdminPanel.Dashboard.FetchDashboardStats | src/pages/AdminPanel.jsx:37-58 | Three unauthenticated GETs in order, the first failure stopping the rest. The stats become `DeriveStats` of the three bodies only when all succeed, and are unchanged otherwise. |
| AdminPanel.QuickPoemForm.HandleSubmit | src/pages/AdminPanel.jsx:294-340 | No usable token: the "token is missing" message, nothing sent, fields kept. Otherwise a POST with `"Bearer " + token`, then the notification POST only on status 201. The fields are cleared only after a 201 whose notification resolved. A create that throws or is answered outside 2xx, or such a notification after a 201, sets "Failed to add poem." and keeps the fields. Another 2xx status leaves message and fields. Loading always ends false. |

## Left out

- JSX rendering, styling, icons, charts, dialogs and the poem form's preview toggle: presentational only.
- HTTP and the backend: each response is a parameter, so the model says nothing about server behaviour, status codes other than the admin panel's 201 check, or timing.
- JSON fidelity: stored values are records (`Browser.Value`), not serialised text. A `poem_draft` slot holding anything but a form record is treated as no draft.
- React effect scheduling and async interleaving. The effects a handler triggers run immediately after it, in declaration order. On mount, the draft slot is briefly rewritten with the default form before the loaded draft is saved again; the model records only the final write. The admin panel calls hooks after an early return; this is not modelled.
- The keyboard shortcut in the poem form (Ctrl/Meta+Enter) is not modelled. Its listener is re-registered only when `form` changes, so it submits with the `handleSubmit` of the last form edit. A `sendNotification` toggled since then is not what it sends. It also bypasses the button's `disabled` guard, so it can submit while a request is loading.
- The auth context is not part of this model. `login(data)` is recorded as an effect, and the user the gates see is a parameter.
- Unicode case folding and `/\s+/`: `Text.Lower` folds only A–Z, and `Text.IsSpace` is the six ASCII white-space characters. Lengths count characters, not UTF-16 code units.
- Toasts and console output: toasts are recorded as trace entries, and console output is dropped.
- AdminPanel's `fetchUsers`, `fetchSubscribers` and view-mode switching: they only copy a response into state for rendering. Two effects on `[viewMode]` each call `fetchDashboardStats`, so every mount and view switch runs it twice. In the users view, `fetchUsers` also runs twice. `AdminPanel.Dashboard.FetchDashboardStats` models a single run.
- AdminPoems.FilterPoems: poems are assumed to have a `title` and `author` string; the source would throw on a record lacking one.
- AdminPoems.PoemsView.FetchPoems: the body is assumed to be an array, because this page does not normalise it.
- Login.LoginPage.HandleSubmit: a response without a `token` field would store the text `"undefined"`; the model's login data always carries a token.
- AdminPanel.Dashboard.FetchDashboardStats: the bodies are taken to be arrays; `.length` of any other value is not modelled.

## Notes on behaviour

- The newsletter form checks only for an empty address, not for an `@`, so any non-empty text is posted (`Newsletter.UncheckedAddressIsPosted`).
- After a successful add, the draft slot is not left empty: the draft key is removed and then immediately written again with the default form by the autosave effect (`PoemForm.PoemFormView.SubmitAndSettle`). The next mount still shows the default form (`PoemForm.ReopenAfterPublish`).
- `handleDelete` builds its own header from `localStorage.getItem("token")`, so a missing token is sent as `"Bearer null"`. The shared client's interceptor then leaves it as it is (`AdminPoems.ExplicitBearer`).
- In the admin panel's quick-add form, a failed email notification after a successful 201 create reports "Failed to add poem.", although the poem was created. The fields are kept.
- `AddPoem.jsx` mounts the poem form without an `onSubmit` handler, so there every complete add-mode submit throws at the call and ends with the "Failed to save poem" toast. The success branch of `PoemForm.PoemFormView.HandleSubmit` is reached only from a host that passes `onSubmit`.
