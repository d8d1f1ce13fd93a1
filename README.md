# Church sermon portal — decision and state model

This project models the logic of a small multi-tenant church portal. Church staff sign in, submit sermon
metadata to a content-generation webhook, see the generated content in an embedded document page, and manage
sermons. Administrators manage church (tenant) records. Almost everything in the portal is markup and calls to a
hosted backend. What is modelled is the logic around those calls:

- the membership resolver that turns the membership lookup's outcome into the `(churchUser, fetchError, loading)` state;
- the two route guards and the route table;
- the home page's sermon intake: validation, payload, and reset after an accepted response;
- the login form's choice between sign-in and sign-up, and its classification of answers and thrown errors;
- the create/edit form modes of the sermons page and of the admin console, with delete behind a confirmation;
- the pure view decisions: viewer frame or placeholder, dashboard figures, and status badges.

Every call into the backend, the auth provider or the webhook is external. Its outcome is an input of the handler
and the request the handler sends is an output. A `confirm` answer is an input; `alert` and `toast` texts are outputs.
The record types (`Church`, `ChurchUser`, `Sermon`, `SermonContent`, module `Records`) transcribe
`src/lib/supabase.ts:15-58`. `processing_status` is a four-constructor enum.

Stateful components are classes whose fields the methods update, as the source's state setters do:
`AuthHook.AuthStore`, `App.Home`, `LoginForm.Form`, `SermonPage.Page` and `AdminPortal.Portal`. Each method's
`ensures` ties the new state to a pure function of the old state and the inputs, and the properties are proved
about those functions. `AuthStore.FetchChurchUser`, `Form.OnSubmit` and `Page.HandleSubmit` change state before
they await their call, so they also return the state visible while the call was pending. `Home.HandleSubmit` and
`Portal.HandleSubmit` change nothing before their await, so there the pending state is the old state.

Three behaviours of the code that the model follows:

- The membership lookup has five outcomes. A returned error with the no-rows code `PGRST116` and a success without
  data both report a missing church record. Any other returned error shows its message. A thrown error shows its
  message, or "Unexpected error". Only a row returned without error becomes the membership.
- When the backend is not configured, the lookup leaves `churchUser` as it was. It does not clear it.
- The intake form requires three fields: URL, date and speaker. The title is optional.

## Model

| member | source | states |
|---|---|---|
| `AuthHook.Awaiting` | src/hooks/useAuth.ts:9-14 | while the lookup is awaited, `fetchError` has been cleared and membership and loading flag are as before |
| `AuthHook.Settle` | src/hooks/useAuth.ts:22-47 | after a configured lookup `loading` is false and exactly one of membership and error is set; no-rows code and missing data give "No church record found for this account", another returned error gives its message, a thrown error gives its message or "Unexpected error", data becomes the membership only when no error came with it |
| `AuthHook.Fetched` | src/hooks/useAuth.ts:1-47 | without configuration only the error ("Supabase configuration missing") and `loading := false` change; with it, the state is what `Settle` gives for the outcome, so exactly one of membership and error is set; `loading` always ends false |
| `AuthHook.AuthStore.FetchChurchUser` | src/hooks/useAuth.ts:1-48 | looks up the given user id only when configured; the state while awaiting is `Awaiting` of the old state; the final state is `Fetched` of the old state |
| `App.IsAdmin` | src/App.tsx:27 | an admin has an account with an `is_admin` metadata entry, and then is one iff that entry is truthy |
| `App.Guarded` | src/App.tsx:12-22 | an admitting guard shows its children; a refusing one shows its own view: the progress text, the error text with its message, or the redirect to its target |
| `App.Protected` | src/App.tsx:10-23 | loading, then a non-empty fetch error, then the account decide: progress text iff loading, error text iff not loading and the error is non-empty, children iff neither and signed in, otherwise redirect to `/login` |
| `App.AdminRoute` | src/App.tsx:25-29 | admits iff the account's `is_admin` metadata is truthy, otherwise redirects to `/` |
| `App.Route` | src/App.tsx:230-254 | `/login` is always the login page; any other path shows progress while loading, otherwise the error screen with the message when the fetch error is non-empty, otherwise `/login` when there is no account; the admin portal shows iff the path is `/admin`, nothing is loading, no error, and the account is an admin; the home page shows iff the path is another path and the account passes `Protected`; a non-admin on `/admin` is sent to `/` |
| `App.RouteAfterLookup` | src/App.tsx:12-22 | once a configured lookup has settled, no protected path shows the progress text; a lookup with no data shows the no-church error |
| `App.EmptyLookupErrorFallsThrough` | src/App.tsx:15-22 | a returned lookup error with an empty message leaves a falsy fetch error, so `Protected` admits the account and the home page shows "No church assigned" |
| `App.WithField` | src/App.tsx:155-187 | an input's change sets its own field and keeps the other three |
| `App.RequiredFilled` | src/App.tsx:47 | the required check passes iff every field other than the title is non-empty |
| `App.Accepted` | src/App.tsx:74 | `response.ok` holds iff the webhook answered with a status from 200 to 299; a transport failure is never accepted |
| `App.IntakeRequest` | src/App.tsx:47-65 | an empty URL, date or speaker stops with "Please fill in all required fields"; only then does a missing webhook URL or church stop with "Configuration missing"; otherwise one POST of JSON to the webhook URL whose body copies church id and name and the four form fields unchanged |
| `AuthHook.Delivered` | src/hooks/useAuth.ts:14-18 | a successful query returns the membership row's own columns, with the church embedded iff the query selects it |
| `App.AsWrittenLookupFindsNoChurch` | src/hooks/useAuth.ts:14-18 | with the row-only selection, a successful lookup sets a membership without church: the home page shows only "No church assigned", so the intake form is never shown; the viewer shows its placeholder; and a submission would not be sent |
| `App.JoinedLookupFindsChurch` | src/hooks/useAuth.ts:14-18 | with the church embedded, a successful lookup opens the portal under the church's name, the viewer frames the church's page iff it has one, and the intake sends iff the form and webhook URL allow |
| `App.CurrentChurch` | src/App.tsx:42 | the current church is the membership's joined church, absent when either is absent |
| `App.HomeScreen` | src/App.tsx:86-223 | with no church only the "No church assigned" notice; otherwise the church's name, the admin link iff admin, and exactly one of the intake and content sections, chosen by the tab |
| `App.Home.constructor` | src/App.tsx:33-39 | the tab starts on sermons and the form is four empty strings |
| `App.Home.SelectTab` | src/App.tsx:119-129 | a tab button selects that tab |
| `App.Home.EditField` | src/App.tsx:155-187 | an input's change updates the form by `WithField` |
| `App.Home.HandleSubmit` | src/App.tsx:44-84 | sends exactly the request `IntakeRequest` gives and nothing when it gives an alert; shows that alert, the submitted message for a 2xx response, or the failure message; clears the form only after a 2xx response |
| `Js.OrElse` | src/hooks/useAuth.ts:43 | the `or` fallback of an optional string: the string when it is present and non-empty, the fallback otherwise |
| `Js.IncludesIffOccurs` | src/components/Auth/LoginForm.tsx:51-54 | the modelled `includes` holds iff the marker occurs at some index of the message |
| `LoginForm.Request` | src/components/Auth/LoginForm.tsx:36-38 | sign-up iff in sign-up mode, otherwise sign-in, with the same email and password |
| `LoginForm.Classify` | src/components/Auth/LoginForm.tsx:40-58 | a returned error toasts its message; success toasts the mode's message and keeps the mode; a thrown unconfirmed-email error toasts success and leaves sign-up mode, checked before the bad-credentials text; any other thrown error toasts its message or "Authentication failed"; the mode changes only from sign-up to sign-in |
| `LoginForm.MessageIncludes` | src/components/Auth/LoginForm.tsx:51-54 | an absent message includes nothing; a present one includes the marker iff the marker occurs in it at some index |
| `LoginForm.NotConfirmedAnywhere` | src/components/Auth/LoginForm.tsx:51-53 | wherever "Email not confirmed" occurs in a thrown message, the form reports a created account and returns to sign-in |
| `LoginForm.Form.constructor` | src/components/Auth/LoginForm.tsx:20-22 | sign-in mode, password hidden, not loading |
| `LoginForm.Form.ToggleMode` | src/components/Auth/LoginForm.tsx:140 | the mode button flips `isSignUp` |
| `LoginForm.Form.TogglePassword` | src/components/Auth/LoginForm.tsx:111 | the eye button flips `showPassword` |
| `LoginForm.Form.OnSubmit` | src/components/Auth/LoginForm.tsx:33-62 | makes the call `Request` gives; `isLoading` is true while awaiting and false afterwards on every path; toast and new mode are `Classify`'s |
| `Feedback.ConfirmedDelete` | src/pages/Dashboard/SermonPage.tsx:39-48 | deletes the id iff confirmed; without confirmation no toast; with it, the success or failure toast of the call's outcome |
| `SermonPage.SaveCall` | src/pages/Dashboard/SermonPage.tsx:18-24 | update of the edited sermon's id iff a sermon is being edited, otherwise create; the data goes unchanged |
| `SermonPage.SaveToast` | src/pages/Dashboard/SermonPage.tsx:20-27 | a success toast iff the call resolved, worded by mode; "Failed to save sermon" otherwise |
| `SermonPage.DeleteSermon` | src/pages/Dashboard/SermonPage.tsx:39-48 | the sermon's delete is issued iff confirmed; nothing is shown otherwise |
| `SermonPage.View` | src/pages/Dashboard/SermonPage.tsx:55-94 | only the spinner while the list loads; otherwise the form shows iff the mode is not closed, holding the edited sermon iff editing, busy as `isLoading` |
| `SermonPage.Page.Mode` | src/pages/Dashboard/SermonPage.tsx:87-94 | closed iff the form is hidden; editing iff shown with a sermon set, and then editing exactly that sermon |
| `SermonPage.Page.constructor` | src/pages/Dashboard/SermonPage.tsx:10-12 | form closed, no sermon edited, not loading |
| `SermonPage.Page.OpenForm` | src/pages/Dashboard/SermonPage.tsx:73 | "Add Sermon" opens the form and keeps the edited sermon, so from closed it is in create mode |
| `SermonPage.Page.HandleEdit` | src/pages/Dashboard/SermonPage.tsx:34-37 | editing that sermon with the form open |
| `SermonPage.Page.HandleCloseForm` | src/pages/Dashboard/SermonPage.tsx:50-53 | form closed and no sermon edited |
| `SermonPage.Page.HandleSubmit` | src/pages/Dashboard/SermonPage.tsx:15-32 | makes `SaveCall` of the mode before the call; success closes the form and clears the edited sermon; failure keeps both; loading true while awaiting and false after; keeps "edited implies open" |
| `AdminPortal.DraftOf` | src/pages/Admin/AdminPortal.tsx:13 | editing copies every field of the church into the form |
| `AdminPortal.WithField` | src/pages/Admin/AdminPortal.tsx:67-89 | an input's change sets its own field and keeps all others, including the id |
| `AdminPortal.Shown` | src/pages/Admin/AdminPortal.tsx:66-88 | an input shows its field's value, or the empty string when the field is absent |
| `AdminPortal.SaveCall` | src/pages/Admin/AdminPortal.tsx:24-30 | update by the edited church's id iff editing, otherwise add; the form goes unchanged |
| `AdminPortal.SaveToast` | src/pages/Admin/AdminPortal.tsx:26-33 | success toast iff the call resolved, worded by mode; "Operation failed" otherwise |
| `AdminPortal.DeleteChurch` | src/pages/Admin/AdminPortal.tsx:37-45 | the church's delete is issued iff confirmed; nothing is shown otherwise |
| `AdminPortal.ResetPassword` | src/pages/Admin/AdminPortal.tsx:47-55 | the reset goes to exactly the church's contact address; success toast iff the call answered without error, so a returned error fails like a thrown one |
| `AdminPortal.UpdateKeepsKey` | src/pages/Admin/AdminPortal.tsx:11-31 | when the form's id names the edited church, an update's body carries the same id and an add carries none |
| `AdminPortal.Portal.constructor` | src/pages/Admin/AdminPortal.tsx:8-9 | adding mode with the blank form |
| `AdminPortal.Portal.HandleEdit` | src/pages/Admin/AdminPortal.tsx:11-14 | editing that church, its fields in the form |
| `AdminPortal.Portal.HandleCancel` | src/pages/Admin/AdminPortal.tsx:16-19 | no church edited and the form back to four empty fields |
| `AdminPortal.Portal.EditField` | src/pages/Admin/AdminPortal.tsx:67-89 | an input's change updates the form by `WithField`, keeping the id invariant |
| `AdminPortal.Portal.HandleSubmit` | src/pages/Admin/AdminPortal.tsx:21-35 | makes `SaveCall` of the current mode and form; success resets like cancel; failure keeps mode and form; an update never re-keys the row |
| `NotionEmbed.PageUrl` | src/components/NotionEmbed.tsx:7 | the URL is the membership's church's page URL, absent when either is absent |
| `NotionEmbed.Embed` | src/components/NotionEmbed.tsx:7-50 | a frame iff the URL is a non-empty string, with the frame source and the "Open in Notion" link both equal to it; no membership or no church gives the placeholder |
| `NotionEmbed.EmbedDependsOnlyOnUrl` | src/components/NotionEmbed.tsx:5-7 | two memberships whose churches have the same URL get the same view, whatever their roles |
| `SermonList.StatusColor` | src/components/Sermons/SermonList.tsx:13-24 | completed iff green, processing iff yellow, failed iff red, pending iff gray |
| `SermonList.ColorClasses` | src/components/Sermons/SermonList.tsx:15-23 | green, yellow, red and gray each have their own background-and-text class string, and no string belongs to two colours |
| `SermonList.StatusText` | src/components/Sermons/SermonList.tsx:45 | the badge spells each of the four statuses by its own word, and no word names two statuses |
| `SermonList.SermonBadge` | src/components/Sermons/SermonList.tsx:39-47 | a badge iff the sermon has a content row, showing its status in `StatusColor`'s colour |
| `SermonList.RenderCard` | src/components/Sermons/SermonList.tsx:35-94 | title, speaker and video link are the sermon's; the series shows iff non-empty; edit gets the sermon and delete its id |
| `SermonList.Cards` | src/components/Sermons/SermonList.tsx:28 | one card per sermon, the i-th card rendering the i-th sermon |
| `SermonList.RenderList` | src/components/Sermons/SermonList.tsx:27-105 | the cards of the list, and the empty-state notice iff the list is empty |
| `DashboardHome.IsProcessed` | src/pages/Dashboard/DashboardHome.tsx:25 | a sermon is processed only when it has a content row, and then iff its status is completed |
| `DashboardHome.ProcessedIffGreenBadge` | src/pages/Dashboard/DashboardHome.tsx:25 | the processed sermons are exactly those whose sermon-list badge is green |
| `DashboardHome.Processed` | src/pages/Dashboard/DashboardHome.tsx:25 | the processed sermons are exactly the listed sermons whose content is completed; a sermon without content is not one; at most the total |
| `DashboardHome.ProcessedCounts` | src/pages/Dashboard/DashboardHome.tsx:25 | the filter keeps every occurrence of a completed sermon and no occurrence of any other, so its length is the number of completed entries |
| `DashboardHome.ProcessedAll` | src/pages/Dashboard/DashboardHome.tsx:25 | the processed count equals the total iff every sermon is processed |
| `DashboardHome.ProcessedNone` | src/pages/Dashboard/DashboardHome.tsx:25 | the processed count is zero iff no sermon is processed |
| `DashboardHome.RoundedPercent` | src/pages/Dashboard/DashboardHome.tsx:32 | the nearest whole percentage of processed over total with halves up; at most 100; 0 for none and 100 for all |
| `DashboardHome.PercentBound` | src/pages/Dashboard/DashboardHome.tsx:31-32 | a round-half-up percentage of a part of the whole lies in 0..100 and is exact at both ends |
| `DashboardHome.Decimal` | src/pages/Dashboard/DashboardHome.tsx:32 | a number prints as a non-empty string of decimal digits without a leading zero |
| `DashboardHome.DecimalRoundTrip` | src/pages/Dashboard/DashboardHome.tsx:32 | reading back the printed digits gives the number |
| `DashboardHome.SuccessRate` | src/pages/Dashboard/DashboardHome.tsx:30-33 | "0%" for an empty list, otherwise the rounded percentage followed by "%" |
| `DashboardHome.ComputeStats` | src/pages/Dashboard/DashboardHome.tsx:10-37 | total is the list's length, processed the filter's count and at most the total, and the success-rate text |
| `DashboardHome.SuccessRateInRange` | src/pages/Dashboard/DashboardHome.tsx:31-32 | for a non-empty list the printed percentage lies between 0 and 100 |
| `DashboardHome.RecentSermons` | src/pages/Dashboard/DashboardHome.tsx:39 | the first min(5, n) sermons in the list's order |
| `DashboardHome.RecentBadgeColor` | src/pages/Dashboard/DashboardHome.tsx:89-97 | the dashboard's chain of status comparisons picks the same colour as the sermon list's `StatusColor` |
| `DashboardHome.Row` | src/pages/Dashboard/DashboardHome.tsx:75-103 | a row shows title and speaker, and a badge iff the sermon has content, with the status text in `StatusColor`'s colour |
| `DashboardHome.Recent` | src/pages/Dashboard/DashboardHome.tsx:73-111 | "No sermons uploaded yet" iff the list is empty; otherwise one row per recent sermon, at most five, in order |

## Findings

| source | as written | input that shows it | evidently intended | confidence | as-written member | corrected member |
|---|---|---|---|---|---|---|
| src/hooks/useAuth.ts:14-18 | the membership lookup is `select('*')` on `church_users`, which returns the row's own columns without the joined `church`; the home page (`src/App.tsx:42`) and the viewer (`src/components/NotionEmbed.tsx:7`) read `churchUser?.church` | any account with a membership row: the lookup succeeds, the row has no `church`, the home page shows only "No church assigned", so the intake form is never shown, and the viewer shows its placeholder | select the row with its church embedded (the one join from memberships to churches), so that `churchUser.church` is the member's church | medium; not executed | `App.AsWrittenLookupFindsNoChurch` (with `AuthHook.Delivered(RowOnly, …)`) | `App.JoinedLookupFindsChurch` (with `AuthHook.Delivered(RowWithChurch, …)`) |

## Left out

- I/O: the webhook request, the backend queries, and the auth provider's sign-in, sign-up, sign-out and
  password-reset calls are not performed. Their outcome is an input and the request is an output.
- The membership lookup's user id is an output of `FetchChurchUser`. The query builder itself is not modelled.
- The auth subscription, the session lifecycle and the hook's initial state are not part of this model. The
  initial state is a constructor parameter. The race between overlapping lookups is a concurrency matter and is
  left out.
- The CRUD hooks `src/hooks/useSermons.ts` and `src/hooks/useChurches.ts` are not part of this model. Whether a
  create, update or delete resolves or throws is an input. Ordering, joins and the follow-up content row are not
  modelled.
- `Records.Sermon`: `sermon_content` is the record type's single optional row. The list query embeds
  `sermon_content(*)` through the content table's foreign key (`src/hooks/useSermons.ts:23-26`), which the backend
  returns as an array unless `sermon_id` is unique. The model does not capture that array, and `IsProcessed`,
  `SermonBadge` and `Row` rely on the single row.
- Clock and dates: the payload's timestamp is a parameter. The "This Month" figure and date formatting are left out.
- `DashboardHome.RoundedPercent`: computes the rounding on exact rationals. It does not model the floating-point
  `Math.round` of `processed / total * 100`, which may differ from exact rounding at a half.
- Form validation by the schema library (email and URL syntax, required-field messages) is left out. `OnSubmit`
  takes credentials that have already been validated.
- `AuthHook.Settle`: assumes a thrown value is an error object whose message may be absent. If the lookup throws
  `null` or `undefined`, reading its message at `src/hooks/useAuth.ts:43` throws again. The error then stays
  cleared and the membership unchanged, so "exactly one of membership and error" fails. That case is not modelled.
- `AuthHook.AuthStore.FetchChurchUser`: the lookup outcome is an input. The model lets a returned row carry a
  joined church, as the corrected query does (see Findings). The row-only query as written is described by
  `AuthHook.Delivered` with `RowOnly`.
- `LoginForm.Classify`: a thrown value is modelled by its `message`, which may be absent. A thrown string or number
  has no message and is `Threw(None)`. A thrown `null` or `undefined` makes `error.message` itself throw at
  `src/components/Auth/LoginForm.tsx:51`; that case is not modelled.
- `App.IsAdmin` reads `is_admin` from a metadata map of scalar values. A missing metadata object is modelled as
  an empty map, and NaN is not represented.
- `SermonList.StatusColor`: the status is the four-valued enum of the record type. The source's `default` case
  for arbitrary strings therefore covers only `pending`.
- Route matching uses exact path comparison. The router's normalisation of trailing slashes and case is left out.
- Markup, styling and navigation-only files (sidebar, header, content page, sermon form rendering) are left out.
- Logging (`console.*`) is dropped.
