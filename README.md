# Ubar client-side state machines, modelled in Dafny

Ubar is a rideshare and mobile-bar front-end with no backend. Its behaviour lives in a few
browser-side state machines, and this project models and verifies them:

- **Credential lookup** (`MockDb`): a constant table of authorized driver profiles. The lookup
  compares the id ignoring case and the pin exactly, and returns the first matching entry.
- **Driver portal** (`Driver`): a session machine over the views `loading`, `login`, `register` and
  `dashboard`. It persists a session marker and the signed-in profile in key-value storage. It
  simulates a login call and an application submission. It has an online toggle and a GPS jitter
  tick that runs while the driver is online.
- **Ride booking** (`Ride`): the page validates pickup and drop-off, runs a simulated dispatch
  search that always confirms, and moves a driver marker towards the map centre on a fixed
  interval. It also holds the map focus query, the locate-me outcomes and the assistant chat log.
- **Podcast player** (`Podcast`): sorts the settled feed request into feed, feed error or
  connection error, and toggles play/pause on the page's single audio element.

`Strings` models JavaScript's `trim` and `toUpperCase`. `Wrappers` holds the Option type that
stands for `null`/`undefined`.

Pages that change state in place are classes. Their fields are the page's state variables, and
`localStorage` is a `map` field. Pure code is functions: the lookup, the marker step, the
validation, the feed classification and the storage writes.

A delayed callback (`setTimeout`) might fire later, or a browser callback might arrive later (the
geolocation answer, a fetch, the assistant reply). Each such callback is an explicit completion
method. Its precondition says that the callback was scheduled. Each `setInterval` period is a
tick method.

The page's buttons prevent re-entry:
- The login and application buttons are disabled while `isLoading`.
- "Request Ubar" is shown only while idle.
- "Cancel Ride" is shown only while confirmed.

So at most one login or application callback and at most one dispatch search can be outstanding.
Geolocation requests and chat submissions (the Enter key bypasses the disabled button) can pile up,
so the model counts them.

Every handler keeps an invariant, stated as `Valid()`:
- The portal has a signed-in driver exactly when it shows the dashboard (for stored data that is a
  profile, text that is not JSON, or absent; see `Driver.Restore` under Left out).
- Only the dashboard can be online.
- `isLoading` holds exactly while a callback is pending.
- The player keeps only a feed whose status is `"ok"`.
- The episode marked active is the source of the audio element.

Each state-changing method states its whole new state, as the old state with the changed fields
updated.

Details of the source that the model follows:
- The view union at `pages/Driver.tsx:7` is spelled `'registe'`, while every use of the view,
  including the comment on line 6, is `'register'`. The model has a `Register` view.
- A stored profile that is not valid JSON makes `JSON.parse` throw inside the session-check
  callback. Nothing after the throw runs, so the page stays on the loading view with no form
  shown (`ParseFailure`).
- "Cancel Ride" is rendered only in the confirmed status, so `Cancel` requires `Confirmed`. No
  control ends a search in progress.
- A jitter offset lies in the half-open range [-0.00025, 0.00025), because `Math.random()`
  returns values in [0, 1).

## Model

| member | source | states |
|---|---|---|
| `MockDb.Find` | data/mockDb.ts:53 | `find` semantics: no result exactly when no entry matches. Otherwise the result is the entry at the first index whose upper-cased id equals the upper-cased input and whose pin equals the input exactly. |
| `MockDb.CheckCredentials` | data/mockDb.ts:52-54 | A returned profile is the first matching entry of the authorized table and matches both tests. The result is absent exactly when no table entry matches. |
| `MockDb.IdsDistinctIgnoringCase` | data/mockDb.ts:16-50 | No two ids in the table are equal after upper-casing. |
| `MockDb.AtMostOneMatch` | data/mockDb.ts:16-54 | At most one entry matches any credentials, and the lookup returns it. |
| `MockDb.AdminIdIgnoresCase` | data/mockDb.ts:16-54 | `("UB-ADMIN","2026")` and `("ub-admin","2026")` both return the `UB-ADMIN` profile. |
| `MockDb.DotlessIAdminLogsIn` | data/mockDb.ts:16-54 | The admin id typed with a dotless i (U+0131) and pin "2026" returns the `UB-ADMIN` profile, as `toUpperCase` maps that letter to 'I'. |
| `MockDb.WrongPinRefused` | data/mockDb.ts:16-54 | `("UB-ADMIN","0000")` returns nothing: the pin is not case-folded and must match exactly. |
| `Strings.IsBlank` | pages/Ride.tsx:98 | `Trim` models `String.prototype.trim`, dropping leading and trailing white space. `!s.trim()` holds exactly when `s` has no character outside the ECMAScript white-space and line-terminator set. |
| `Strings.Upper` | data/mockDb.ts:53 | `toUpperCase` on the characters whose capital is one ASCII letter (see `Strings.Upper` under Left out): the length is kept, none of them remains, no other character changes, a-z become A-Z, the dotless i becomes 'I' and the long s 'S'. |
| `Strings.UpperIdempotent` | data/mockDb.ts:53 | Upper-casing an upper-cased string changes nothing. |
| `Strings.UpperEqualIff` | data/mockDb.ts:53 | Two strings are equal after upper-casing exactly when they have the same length and agree letter by letter regardless of case, where 'i', 'ı' and 'I' are one letter, and so are 's', 'ſ' and 'S'. |
| `Driver.Restore` | pages/Driver.tsx:30-44 | The session check: a missing or empty marker, or a missing or empty stored profile, gives login. A marker together with a profile gives the dashboard with that profile. Non-JSON data gives the failed parse. |
| `Driver.SignIn` | pages/Driver.tsx:77-78 | The login writes: the marker is `active` and the data is the profile. No other key changes. A later session check over the result restores the dashboard with the same profile. |
| `Driver.SignOut` | pages/Driver.tsx:100-101 | The logout removals: both keys are gone and no other key changes. A later session check goes to login. |
| `Driver.Jitter` | pages/Driver.tsx:58-59 | For a draw `r` in [0,1), `(r - 0.5) * 0.0005` lies in [-0.00025, 0.00025). |
| `Driver.JitterStep` | pages/Driver.tsx:57-60 | One jitter tick changes each coordinate by at least -0.00025 and by less than +0.00025. |
| `Driver.DriftBound` | pages/Driver.tsx:54-61 | `Drift` applies one `JitterStep` per pair of draws, in order, as the interval's ticks do. After N jitter ticks each coordinate lies within N × 0.00025 of where it started. |
| `Driver.Portal.constructor` | pages/Driver.tsx:7-26 | The mount state: the loading view, offline, the Dallas start location, no driver, empty forms, the given storage, and the session check scheduled. |
| `Driver.Portal.CheckSession` | pages/Driver.tsx:29-48 | The session check runs once and sets the view and driver as `Restore` of the storage decides. A failed parse changes nothing. The invariant is kept. |
| `Driver.Portal.EditDriverId` | pages/Driver.tsx:176 | Typing in the id field changes only `driverId`. |
| `Driver.Portal.EditPassword` | pages/Driver.tsx:189 | Typing in the pin field changes only `password`. |
| `Driver.Portal.SubmitLogin` | pages/Driver.tsx:67-72 | A login submission clears `error`, sets `isLoading` and schedules the lookup. The lookup uses the id and pin as they were at submission. Nothing else changes. |
| `Driver.Portal.CompleteLogin` | pages/Driver.tsx:73-85 | On a match: the writes of `SignIn`, the matched driver, the dashboard, `isLoading` false. On no match: `error` is exactly "Invalid Credentials. Access Denied.", `isLoading` is false, and storage, view and driver are unchanged. |
| `Driver.Portal.ApplyLogin` | pages/Driver.tsx:76-84 | The callback body for a given lookup answer, with the same two outcomes as `CompleteLogin`. |
| `Driver.Portal.SubmitApplication` | pages/Driver.tsx:88-91 | An application submission sets `isLoading` and schedules the simulated submission. |
| `Driver.Portal.CompleteApplication` | pages/Driver.tsx:93-96 | The submission always succeeds: `isApplicationSent` becomes true and `isLoading` false. |
| `Driver.Portal.DismissApplication` | pages/Driver.tsx:287 | "Return to Login" resets `isApplicationSent` and shows login. |
| `Driver.Portal.ShowLoginTab` | pages/Driver.tsx:146 | The Login tab shows login and clears `error`. |
| `Driver.Portal.ShowRegisterTab` | pages/Driver.tsx:152 | The Apply tab shows register and clears `error`. |
| `Driver.Portal.Logout` | pages/Driver.tsx:99-107 | Logout does the removals of `SignOut`, goes offline, drops the driver, shows login and empties the id and pin fields. |
| `Driver.Portal.ToggleOnline` | pages/Driver.tsx:351 | The toggle flips `isOnline` and nothing else. |
| `Driver.Portal.GpsTick` | pages/Driver.tsx:51-65 | A polling tick moves the location by `JitterStep` only while online on the dashboard. Otherwise nothing changes. |
| `Driver.RestoreAfterLogout` | pages/Driver.tsx:30-107 | After a logout, a fresh page over the same storage resolves to login with no driver. |
| `Driver.RestoreAfterLogin` | pages/Driver.tsx:30-85 | After a login that matches, a fresh page over the same storage resolves to the dashboard with the same driver. |
| `Ride.Approach` | pages/Ride.tsx:54-68 | Within 0.5 of (50,50) on both axes the position is returned unchanged. Otherwise each axis distance to the target becomes 0.95 of what it was. |
| `Ride.ApproachNeverOvershoots` | pages/Ride.tsx:59-67 | A tick never increases the distance on either axis and keeps its sign, so the marker never passes the target. |
| `Ride.TrackMonotone` | pages/Ride.tsx:53-69 | `Track(p, n)` is the marker after n interval ticks of `Approach` from `p`. Over repeated ticks the distance to the target never grows, on either axis. |
| `Ride.TrackStaysArrived` | pages/Ride.tsx:62 | Once arrived, further ticks leave the position unchanged. |
| `Ride.TrackBound` | pages/Ride.tsx:53-69 | Until arrival, the distance after n ticks is at most the starting distance divided by 1 + n/20. |
| `Ride.ArrivesWithin` | pages/Ride.tsx:53-69 | The marker has arrived once 1 + n/20 exceeds twice the starting distance on both axes. |
| `Ride.ArrivesFromStart` | pages/Ride.tsx:49-69 | From the confirmed start (80,20) the marker has arrived after any n ≥ 1200 ticks. |
| `Ride.RequestError` | pages/Ride.tsx:97-101 | A request is refused, with exactly "Please enter both pickup and drop-off locations.", exactly when the pickup or the drop-off has no character that is not white space. |
| `Ride.Booking.constructor` | pages/Ride.tsx:13-29 | The mount state: empty fields, the map on "Nightlife Seattle WA", idle, the marker at (10,10), empty chat. |
| `Ride.Booking.EditPickup` | pages/Ride.tsx:234 | Typing in the pickup field changes only `pickup`. |
| `Ride.Booking.EditDropoff` | pages/Ride.tsx:39-44 | Typing sets `dropoff`. `mapQuery` becomes the new text only when the text changed and its raw, untrimmed length exceeds 5. |
| `Ride.Booking.SelectDestination` | pages/Ride.tsx:149-153 | Picking a suggestion sets the drop-off to `name + ", " + address`, with the same map update as `EditDropoff`. |
| `Ride.Booking.EditChatInput` | pages/Ride.tsx:418 | Typing in the chat field changes only `chatInput`. |
| `Ride.Booking.LocateMe` | pages/Ride.tsx:74-80 | Without geolocation, exactly one model message is appended and nothing else changes. With geolocation, `isLocating` is set and a request is outstanding. |
| `Ride.Booking.LocateSucceeded` | pages/Ride.tsx:82-88 | Success sets the pickup to "Current Location", `mapQuery` to "lat,lng" and `isLocating` to false. |
| `Ride.Booking.LocateFailed` | pages/Ride.tsx:89-93 | Failure clears `isLocating` and appends exactly one model message. The pickup is unchanged. |
| `Ride.Booking.RequestRide` | pages/Ride.tsx:97-104 | A blank field sets the validation message and leaves the status idle. A valid request clears `errorMessage` and moves to searching. |
| `Ride.Booking.CompleteSearch` | pages/Ride.tsx:106-108 | The search always ends confirmed, with no failure outcome. Entering confirmed puts the marker at (80,20) (lines 49-51). |
| `Ride.Booking.Tick` | pages/Ride.tsx:53-69 | A tracking tick while confirmed moves the marker by `Approach` and changes nothing else. |
| `Ride.Booking.Cancel` | pages/Ride.tsx:333 | Cancel from confirmed sets the status to idle and nothing else. |
| `Ride.Booking.SubmitChat` | pages/Ride.tsx:111-117 | A blank chat input changes nothing. Otherwise the input is emptied, exactly one user entry with that text is appended, and the assistant becomes busy. |
| `Ride.Booking.ConsultAnswered` | pages/Ride.tsx:133-140 | The answer's suggestions replace the old ones, one model message is appended, and the busy flag clears. |
| `Ride.Booking.ConsultFailed` | pages/Ride.tsx:141-146 | A failed call appends the one apology message and the busy flag clears. |
| `Podcast.Classify` | pages/Podcast.tsx:48-61 | A body with status `"ok"` becomes the feed. Any other status gives "Could not load podcast feed.". A rejected request gives "Failed to connect to podcast service.". |
| `Podcast.AudioElement.Play` | pages/Podcast.tsx:70 | `play()` starts playback and keeps the source. |
| `Podcast.AudioElement.Pause` | pages/Podcast.tsx:72 | `pause()` stops playback and keeps the source. |
| `Podcast.Player.constructor` | pages/Podcast.tsx:35-47 | At mount the request starts, and `loading` holds, exactly when the feed URL is not empty. The audio element exists only then. |
| `Podcast.Player.FetchSettled` | pages/Podcast.tsx:49-61 | The settled request sets `feed` or `error` as `Classify` decides. `loading` becomes false in all three cases. |
| `Podcast.Player.ToggleAudio` | pages/Podcast.tsx:64-80 | Without an element nothing changes. For a different URL: the source is set, playback starts, and that URL becomes active. For the active URL while playing: pause, and no URL is active. For the active URL while paused: play, and the active URL is unchanged. |
| `Podcast.Player.OnEnded` | pages/Podcast.tsx:127 | The `ended` event leaves the element paused on the same source and clears the active URL; nothing else changes. |
| `Podcast.Player.OnExternalPause` | pages/Podcast.tsx:127 | A pause from outside the page (the element has no pause handler) pauses the element and keeps the page state, including the active URL. |
| `Podcast.ResumeAfterExternalPause` | pages/Podcast.tsx:64-71 | After an outside pause, the active episode's button plays it again on the same source and it stays active. |
| `Podcast.MountConfigured` | pages/Podcast.tsx:43-45 | With the configured empty feed URL, no request starts and `loading` stays false. |

## Left out

- All JSX rendering and styling, and the pages and components without behaviour: tickets,
  events, sponsorships, footer, navigation, and the trivial tab routing of `App.tsx`.
  `constants.ts` and `types.ts` are plain data; only the empty feed URL is used.
- Real timers. The delays (800, 1500, 2000 and 2500 ms) and interval periods (1000 and 1500 ms)
  are not modelled. Each callback is a completion or tick method. React effect scheduling,
  re-render timing and development-mode double effects are not modelled.
- The assistant call, its prompt and the `JSON.parse` of its reply are foreign calls. Only their
  outcome is kept: a suggestion list for `ConsultAnswered`, a failure for `ConsultFailed`.
- `JSON.stringify` and `JSON.parse` of the stored driver. Storage holds either text or a profile
  value.
- Driver.Restore: treats every stored data text as one that `JSON.parse` rejects, so the page
  stays on the loading view. In the source a stored text that is valid JSON but not a profile
  parses. `"null"` sets no driver and shows the dashboard with every driver field empty, because
  the fields are read through `?.` (pages/Driver.tsx:37-38 and 323-368). Any other JSON value
  becomes the current driver as it is. So the invariant that a driver is signed in exactly when
  the dashboard shows holds only when the stored data is a profile, text that is not JSON, or
  absent. Storage that the page wrote itself (`SignIn`, `SignOut`) is always one of these.
- The browser geolocation API, `fetch` to the feed converter and the DOM audio element are
  replaced by inputs (supported or not, the coordinates as text, the settled request) and by
  abstract state (`src`, `paused`). The promise returned by `play()` and URL resolution of `src`
  are not modelled.
- The rendering of coordinates with JavaScript's number-to-string conversion. `LocateSucceeded`
  receives the two strings.
- `Math.random` and `Date.now` in the cosmetic speed and packet displays. The jitter draws are
  parameters in [0,1).
- IEEE floating point. Positions and coordinates are `real`, so rounding is not modelled.
- Strings.Upper: folds a-z, U+0131 (dotless i) and U+017F (long s), the characters whose upper
  case is a single ASCII letter; every other character is kept, because full Unicode case mapping
  is out of scope. `toUpperCase` also maps other letters ('é' to 'É') and expands some ('ß' to
  "SS", 'ﬁ' to "FI"). The lookup folds the typed id as well as the table's. Each of those other
  mappings yields a non-ASCII character, an 'F' or an 'S', and no table id contains any of
  these, so a typed id that uses one matches no entry in the source either. Other callers of
  `Upper` would see the difference.
- Length counting. JavaScript's `length` counts UTF-16 code units, while the model counts Unicode
  scalar values. The drop-off length test differs only for characters outside the Basic
  Multilingual Plane.
- The registration form's fields (name, email, vehicle model, licence plate) and their edit
  handlers. They are only displayed back and never sent.
- `console.error` logging and the chat auto-scroll effect.
- Cancelling a search in progress. The page offers no control for it, and its timer is never
  cleared.
