# CloudSubmit: a verified model of the form, the dashboard and the persistence adapter

CloudSubmit is a small client-side application. Visitors fill in an inquiry
form. Each submission is appended to one hosted JSON document that serves as
the whole database. An administrator behind a demo password reviews the
submissions on a dashboard, with search, counters, refresh and clear-all.

This project models the five pieces of the application that carry logic, one
Dafny module each, plus a module of shared types and one of string helpers:

- `Types` (types.ts): `FormResponse`, the four `Category` values, the four
  `AppView` values, `StorageResult`, and `ResponseInput`. `ResponseInput` is a
  `FormResponse` without id, timestamp and device, which is also the shape of
  the form's state. `device` stays a plain `string`, as in the source.
- `Text`: ASCII `toLowerCase` (`Lower`) and `includes` (`Contains`).
  `Contains` is proved equal to "occurs at some position".
- `Storage` (services/storageService.ts): class `StorageService`, whose field
  `cloud` is the remote document. `SaveResponse` does the read-modify-write:
  a failed read or a non-array body counts as the empty list, the new record
  is prepended, and success means the write succeeded. `GetAllResponses` falls
  back to the empty list on any failure. `ClearResponses` writes the empty
  list. No exception escapes: every method is total and returns a value.
  Each fetch is a parameter (`ReadOutcome`, `WriteOutcome`). The random id,
  the clock and the user-agent string are parameters too. Lemmas cover:
  - save-then-list;
  - clearing twice;
  - newest-first order over any run of saves (`SubmitAll`);
  - timestamp order when the clock does not run backwards.
- `Dashboard` (components/AdminFrame.tsx): the search filter is proved to be
  an order-preserving subsequence that keeps exactly the matching records.
  It is also proved idempotent, case-insensitive and distributive over
  concatenation, and an empty search keeps everything. The Mobile/Desktop
  counters are proved to partition the total exactly when no other device
  string occurs. The 24-hour counter is bounded. Class `AdminFrame` holds
  `responses`, `loading` and `filter`, with `LoadResponses` and `ClearAll`.
- `Router` (App.tsx): the app state (view, admin flag, last assigned hash),
  the hash-change handler, `navigateTo`, `handleAdminLogin`, the Admin Panel
  target and the rendering rule, with class `App` proved against them. Over
  any sequence of UI events, the flag never reverts. Starting from the
  initial state, the dashboard view is never reached without the flag.
- `SubmissionForm` (components/FormFrame.tsx): on success the fields reset;
  on failure they are kept and the adapter's message is alerted. The
  submitting flag is set while the save is awaited. "Submit Another" and the
  field edits touch only their own part of the state.
- `LoginGate` (components/AdminLogin.tsx): the password check against
  `admin123`, the error and field-clearing transition, and the password
  change handler. `onLogin` is never called with `false`.

The React components `App`, `AdminFrame`, `FormFrame` and `AdminLogin` are
classes whose fields are the components' `useState` variables. `App` has one
extra field, `locationHash`, which stands for `window.location.hash` as last
assigned by the application. `storageService` is a plain object with no
fields. Its class `StorageService` holds one field, `cloud`, which stands for
the remote JSON document the service reads and writes. The methods are
proved against pure transition functions (`ensures State() ==
OnHashChange(old(State()), rawHash)`), and the lemmas are stated about those
functions.

Points where the code is narrower than one might expect:
- `saveResponse` has no retention cap, retry or timeout. It does one read,
  one `unshift` and one write (services/storageService.ts:22-51).
- `device` is a free string in the type (types.ts:9), so the counters are
  stated for any string.
- The dashboard has no periodic refresh. It loads on mount
  (components/AdminFrame.tsx:18-20), on the refresh button (90) and after
  clear-all (40).
- `clearResponses` neither checks the status nor reports anything
  (services/storageService.ts:80-90).

Two behaviours of the code are kept as written:
- The hash handler removes the first `#` wherever it occurs (`replace`
  with a string pattern), not only a leading one.
- No hash handling runs at mount, so the application starts on the intro
  view whatever the URL's hash is.

## Model

| member | source | states |
|---|---|---|
| `Text.LowerChar` | components/AdminFrame.tsx:23-25 | upper-case ASCII letters map to lower case (+32), every other character is kept, and no upper-case letter remains |
| `Text.Lower` | components/AdminFrame.tsx:23-25 | `toLowerCase` keeps the length of the string |
| `Text.LowerAt` | components/AdminFrame.tsx:23-25 | `toLowerCase` works character by character |
| `Text.LowerIdempotent` | components/AdminFrame.tsx:23-25 | lower-casing twice equals lower-casing once |
| `Text.LowerKeepsLowercase` | components/AdminFrame.tsx:23-25 | a string without capitals is its own lower case |
| `Text.Contains` | components/AdminFrame.tsx:23-25 | `includes`: the empty string is always found; a found string is no longer than the text |
| `Text.OccursShift` | components/AdminFrame.tsx:23-25 | dropping the first character moves every occurrence one place left |
| `Text.ContainsIff` | components/AdminFrame.tsx:23-25 | `includes` is true exactly when the needle occurs at some position of the text |
| `Text.MissingCharNotContained` | components/AdminFrame.tsx:23-25 | a text lacking one character of the needle does not contain it |
| `Text.ContainsSelf` | components/AdminFrame.tsx:23-25 | every string contains itself |
| `Storage.ListFromRead` | services/storageService.ts:22-32 | a thrown or non-ok read, or a non-array body, yields the empty list; an ok read with an array body yields the body unchanged |
| `Storage.AnyKeywordIn` | services/storageService.ts:39 | the alternation test holds exactly when some keyword, lower-cased, occurs in the lower-cased agent |
| `Storage.MobileAgentIff` | services/storageService.ts:39-40 | an agent is mobile exactly when one of Android, webOS, iPhone, iPad, iPod, BlackBerry, IEMobile, Opera Mini occurs in it, ignoring case |
| `Storage.DeviceOf` | services/storageService.ts:39-40 | the device is "Mobile" exactly when the agent is mobile, and "Desktop" otherwise |
| `Storage.DeviceIgnoresCase` | services/storageService.ts:39 | the `/i` flag: the classification does not depend on the agent's case |
| `Storage.DeviceExampleMobile` | services/storageService.ts:39-40 | "IPHONE" is classified Mobile |
| `Storage.NoKeywordInEmpty` | services/storageService.ts:39 | an empty agent string matches no keyword |
| `Storage.DeviceExampleDesktop` | services/storageService.ts:39-40 | an empty agent string is classified Desktop |
| `Storage.NewRecord` | services/storageService.ts:35-41 | the new record copies name, email, category and message unchanged, takes the given id and clock reading, and has device DeviceOf of the user agent, so Mobile or Desktop |
| `Storage.Unshift` | services/storageService.ts:44 | after `unshift`, the length grows by one, the new record is the head, and the old list follows unchanged and in order |
| `Storage.SavedCloud` | services/storageService.ts:44-53 | after a successful write the document is the new record followed by what the read yielded; after a failed write it is unchanged |
| `Storage.SaveResult` | services/storageService.ts:53-58 | success exactly when the write was ok; the failure message is 'Cloud sync failed. Connection issue.' |
| `Storage.ClearedCloud` | services/storageService.ts:80-90 | a successful clear leaves the empty document; a failed one leaves it unchanged |
| `Storage.StorageService.constructor` | services/storageService.ts:10-14 | the adapter works on one remote document, whose contents at the start are given |
| `Storage.StorageService.SaveResponse` | services/storageService.ts:19-60 | the result is SaveResult of the write; the new document is SavedCloud of the old one, the new record, the read and the write |
| `Storage.StorageService.GetAllResponses` | services/storageService.ts:65-75 | returns exactly ListFromRead of the read outcome |
| `Storage.StorageService.ClearResponses` | services/storageService.ts:80-90 | the document becomes ClearedCloud of the old one; nothing is reported |
| `Storage.SaveThenList` | services/storageService.ts:35-50 | with no other writer, listing after a successful save yields exactly the new record first (all four user fields preserved, the id and clock reading, the device classified from the user agent), then what the save's read yielded |
| `Storage.ClearTwice` | services/storageService.ts:80-90 | two clears, either of them successful, leave the document empty, and a following successful read lists nothing |
| `Storage.Reversed` | services/storageService.ts:44 | reversal keeps the length |
| `Storage.ReversedAt` | services/storageService.ts:44 | position i of the reversal holds the element i places from the end |
| `Storage.SubmitAllNewestFirst` | services/storageService.ts:22-51 | successive successful saves with no other writer leave the records in reverse order of saving, ahead of the old document |
| `Storage.SubmitAllKeepsNewestFirst` | services/storageService.ts:38-44 | with a clock that does not run backwards, successive saves keep the document's timestamps non-increasing from head to tail |
| `Dashboard.FilterResponses` | components/AdminFrame.tsx:22-26 | the result is an order-preserving subsequence of the list, and a record is in it exactly when it is in the list and the lower-cased filter occurs in its lower-cased name, email or message |
| `Dashboard.EmptyFilterKeepsAll` | components/AdminFrame.tsx:9 | with the initial empty search every record is shown, in order |
| `Dashboard.FilterIdempotent` | components/AdminFrame.tsx:22-26 | searching the search result again changes nothing |
| `Dashboard.FilterIgnoresCase` | components/AdminFrame.tsx:22-26 | the search ignores the case of the filter text |
| `Dashboard.FilterAppend` | components/AdminFrame.tsx:22-26 | searching a concatenation is concatenating the searches |
| `Dashboard.MissesWhenCharAbsent` | components/AdminFrame.tsx:22-26 | a record whose three searched fields all lack some character of the lower-cased filter is not shown |
| `Dashboard.CountDevice` | components/AdminFrame.tsx:55 | a device counter never exceeds the total |
| `Dashboard.DeviceCountsPartition` | components/AdminFrame.tsx:50-61 | the Mobile and Desktop counters sum to at most the total, and to exactly the total iff every device is "Mobile" or "Desktop" |
| `Dashboard.SavedRecordsCountFully` | components/AdminFrame.tsx:50-61 | for records created by the adapter, the Mobile and Desktop counters sum to the total |
| `Dashboard.CountRecent` | components/AdminFrame.tsx:67 | the "New (24h)" counter never exceeds the total |
| `Dashboard.CountRecentBounds` | components/AdminFrame.tsx:67 | the counter equals the total iff every record has now - timestamp < 86400000, and is zero iff none has |
| `Dashboard.AdminFrame.constructor` | components/AdminFrame.tsx:7-9 | mounting starts with no records, the spinner on and an empty search |
| `Dashboard.AdminFrame.Filtered` | components/AdminFrame.tsx:22-26 | the table rows are a subsequence of the loaded list holding exactly its matching records |
| `Dashboard.AdminFrame.LoadResponses` | components/AdminFrame.tsx:11-16 | the list is replaced wholesale by the adapter's result, the spinner ends off, and the search is kept |
| `Dashboard.AdminFrame.SetFilter` | components/AdminFrame.tsx:82 | typing in the search box changes only the search text |
| `Dashboard.AdminFrame.ClearAll` | components/AdminFrame.tsx:37-42 | when confirmed, the document is cleared and the list reloaded; otherwise neither the dashboard nor the document changes |
| `Router.ParseView` | App.tsx:16-17 | a recognised hash parses to the view of that name |
| `Router.ParseViewName` | App.tsx:17 | every view's name parses back to that view and contains no '#' |
| `Router.FirstHash` | App.tsx:16 | the position of the first '#': no '#' before it, and a '#' at it unless it is the length |
| `Router.StripFirstHashSpec` | App.tsx:16 | `replace('#', '')` keeps a string without '#' and otherwise cuts out exactly the first '#' |
| `Router.OnHashChange` | App.tsx:15-24 | an unknown hash changes nothing; the dashboard hash while unauthenticated leads to the login view; any other valid hash becomes the view; the flag is kept |
| `Router.OnNavigate` | App.tsx:30-33 | the hash and the view are set to the same view; the flag is kept |
| `Router.OnAdminLogin` | App.tsx:35-40 | success sets the flag and goes to the dashboard; failure changes nothing |
| `Router.AdminPanelTarget` | App.tsx:66 | the Admin Panel button leads to the dashboard exactly when authenticated, and to the login view otherwise |
| `Router.Rendered` | App.tsx:76-89 | the dashboard is rendered exactly when the view is the dashboard and the flag is set; the dashboard view without the flag renders the login form |
| `Router.Initial` | App.tsx:10-11 | the application starts on the intro view, not authenticated |
| `Router.AuthenticatedStaysSet` | App.tsx:11-37 | once set, the admin flag stays set after any sequence of events |
| `Router.StepKeepsDashboardGuarded` | App.tsx:15-40 | no single event puts an unauthenticated user on the dashboard view |
| `Router.RunKeepsDashboardGuarded` | App.tsx:15-89 | from a guarded state, no event sequence reaches the dashboard view without the flag, so the dashboard is rendered exactly when that view is current |
| `Router.NavigateThenEcho` | App.tsx:15-33 | the hash change raised by navigateTo's own assignment leaves the view where navigation put it, unless it is the dashboard and the flag is unset |
| `Router.App.constructor` | App.tsx:10-11 | the shell starts in the initial state |
| `Router.App.HandleHashChange` | App.tsx:15-24 | the new state is OnHashChange of the old one |
| `Router.App.NavigateTo` | App.tsx:30-33 | the new state is OnNavigate of the old one |
| `Router.App.HandleAdminLogin` | App.tsx:35-40 | the new state is OnAdminLogin of the old one |
| `Router.App.Dispatch` | App.tsx:48-81 | each header button and screen callback moves the shell by the corresponding Step |
| `Router.App.SubmitAdminLogin` | App.tsx:84-89 | submitting the rendered login form with the right password moves the shell by OnAdminLogin with success (flag set, view and hash the dashboard) and leaves the form's password and error as they were; with any other password the shell is unchanged and the form shows the hint with an empty field |
| `LoginGate.SubmitLogin` | components/AdminLogin.tsx:12-21 | `onLogin` is called, with true, exactly when the password is 'admin123', and never with false; a wrong password sets the hint error and empties the field |
| `LoginGate.EditPassword` | components/AdminLogin.tsx:44-47 | editing stores the new text and clears the error |
| `LoginGate.RetryAfterFailure` | components/AdminLogin.tsx:12-47 | after a failed attempt an immediate resubmit fails again, and typing then submitting succeeds exactly for 'admin123' |
| `LoginGate.AdminLogin.constructor` | components/AdminLogin.tsx:9-10 | the form starts with an empty password and no error |
| `LoginGate.AdminLogin.HandleLogin` | components/AdminLogin.tsx:12-21 | the new state and the callback argument are those of SubmitLogin |
| `LoginGate.AdminLogin.OnPasswordChange` | components/AdminLogin.tsx:44-47 | the new state is EditPassword of the old one |
| `SubmissionForm.InitialState` | components/FormFrame.tsx:10-17 | empty name, email and message, category General, neither submitting nor successful |
| `SubmissionForm.BeginSubmit` | components/FormFrame.tsx:21 | the submitting flag is on while the save is awaited; fields and success flag are kept |
| `SubmissionForm.FinishSubmit` | components/FormFrame.tsx:25-32 | success shows the confirmation and resets the fields; failure keeps the fields and the success flag and alerts the result's message; the submitting flag ends off |
| `SubmissionForm.SubmitAnother` | components/FormFrame.tsx:47 | "Submit Another" clears only the success flag |
| `SubmissionForm.EditText` | components/FormFrame.tsx:78-116 | editing name, email or message changes that field only |
| `SubmissionForm.EditCategory` | components/FormFrame.tsx:100 | choosing a category changes the category only |
| `SubmissionForm.SuccessThenAnotherIsFresh` | components/FormFrame.tsx:25-47 | a successful submission followed by "Submit Another" returns the form to exactly its initial state |
| `SubmissionForm.FailureKeepsInput` | components/FormFrame.tsx:28-32 | a failed write alerts 'Cloud sync failed. Connection issue.' and keeps the fields, so a resubmission sends the same values |
| `SubmissionForm.FormFrame.constructor` | components/FormFrame.tsx:10-17 | the form starts in InitialState |
| `SubmissionForm.FormFrame.StartSubmit` | components/FormFrame.tsx:21 | the new state is BeginSubmit of the old one |
| `SubmissionForm.FormFrame.Settle` | components/FormFrame.tsx:25-32 | the new state and the alert are FinishSubmit of the old state and the result |
| `SubmissionForm.FormFrame.HandleSubmit` | components/FormFrame.tsx:19-33 | the current fields are saved through the adapter, and the form settles on SaveResult of the write |
| `SubmissionForm.FormFrame.SubmitAnotherClick` | components/FormFrame.tsx:47 | the new state is SubmitAnother of the old one |
| `SubmissionForm.FormFrame.OnTextChange` | components/FormFrame.tsx:78-116 | the new state is EditText of the old one |
| `SubmissionForm.FormFrame.OnCategoryChange` | components/FormFrame.tsx:100 | the new state is EditCategory of the old one |

## Left out

- HTTP, `fetch`, the npoint.io URL, request headers and JSON parsing are abstracted. Each fetch is given as its outcome. `ReadThrew` covers a rejected `fetch` and a body that `json()` cannot parse: both end in the same catch.
- Array bodies are taken to hold `FormResponse` values. `Array.isArray` checks only that the body is an array, not the shape of its elements.
- A write that throws or answers non-ok is taken to leave the document unchanged. A write the server applied before the connection failed is not modelled.
- `Math.random` ids, `Date.now` and `navigator.userAgent` are parameters. The randomness and uniqueness of ids is not modelled.
- Timestamps are integers. JavaScript numbers are floating point, which is not modelled.
- Lower-casing and the regular expression's `/i` matching are ASCII only. Full Unicode case mapping is not modelled.
- Concurrency is not modelled: appenders racing on the read-modify-write (lost updates), overlapping dashboard loads, and field edits made while a save is awaited.
- React's effect re-registration is not modelled. `NavigateThenEcho` assumes the hash-change listener sees the current admin flag. The listener that receives the event raised by `navigateTo`'s own assignment is whichever one is registered at that moment.
- `window.location` and the listener wiring are not modelled. `App.locationHash` records only the hash the application itself assigned.
- `alert` is returned as the shown message. `confirm` is a boolean input. `console` logging is omitted.
- The browser's `required` field validation is not modelled. The handlers accept any strings, including empty ones.
- `Dashboard.AdminFrame.LoadResponses`: its contract states only the final state. The spinner being on while the read is awaited (components/AdminFrame.tsx:12) is not stated.
- Not modelled: date formatting (components/AdminFrame.tsx:28-35), all markup and styling, category badge colours, and components/IntroFrame.tsx, which is static presentation.
