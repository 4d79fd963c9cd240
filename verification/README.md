# HyroxTracker page logic in Dafny

HyroxTracker is a small web application for logging Hyrox training sessions.
This project models the decision logic of four of its pages as pure Dafny
functions and proves properties of them:

- the **login/signup page**: the form, its change handler, the ordered
  validation of the submit handler, the profile document written at signup,
  and the fr/en language toggle;
- the **multi-station tracking page**: the ten-field form, the lenient
  `parseInt(value) || 0` change handler, the date gate, and the performance
  document written for the signed-in user;
- the **single-station entry page**: the raw-text change handler, the
  required-field gate, the `minutes * 60 + (seconds || 0)` arithmetic, and
  the reset of the form after a save;
- the **dashboard**: the session callback that loads the profile and the
  performances, the stable date-descending sort, the chart series (the
  sorted list reversed), the five most recent sessions, and the placeholders
  shown for an empty history.

A handler is modelled as a function that returns the ordered list of its
observable effects. The effects are busy-flag updates, alerts, navigation,
and calls to the identity provider and document store. The replies of
those services and the clock readings are parameters. JavaScript's
`parseInt` is modelled as ECMA-262 section 19.2.5 describes it, up to its
last step. It skips leading white space, takes an optional sign, reads a
`0x` prefix as radix 16, reads the longest digit run, and gives NaN when
there is none. The last step, which rounds the value to a double, is not
modelled: numbers are exact integers. The two agree on the safe integers,
at most 2^53 - 1 in magnitude, and the claims about JavaScript's numbers
below are stated for those. Dates
are ISO 8601 extended calendar dates `YYYY-MM-DD` (section 4.1.2.2 of ISO
8601:2004). They are compared through an integer day number, not through
JavaScript's `Date`.

Modules: `Options`, `JsNumber` (parseInt and decimal rendering), `IsoDate`,
`Records` (the stored document shapes), `Effects` (effect traces, the
busy-flag replay), `Languages`, `Login`, `Track`, `Tracking`, `StableSort`
(a generic stable insertion sort), `History` (sort by date, chart, recent
list) and `Dashboard`.

Behaviour of the pages worth knowing:

- On the tracking page the date gate only rejects an empty date; a
  non-empty date that is not a calendar day is written all the same
  (`Track.SubmitWrites` needs only `date != ""`).
- On the entry page, minutes are not checked to be a non-negative integer:
  text such as `abc` passes the gate and is stored as NaN
  (`Tracking.SubmitNonNumericMinutes`).
- The profile document written at signup also holds the email.
- The dashboard does not exclude records with a malformed date before
  sorting.

## Model

| member | source | states |
|---|---|---|
| `JsNumber.ParseIntRoundTrip` | pages/login.tsx:51 | `parseInt` reads the decimal rendering of every safe integer, negative ones included, back as that integer |
| `JsNumber.ParseInt` | pages/tracking.tsx:76 | no contract of its own; its behaviour is stated by `TrimStartSpec`, `DigitPrefixSpec`, `ParseIntSigned`, `ParseIntUnsigned`, `ParseIntNoDigit`, `ParseIntEmptyIsNaN`, the hex-prefix lemmas and the round trip |
| `JsNumber.ParseIntOfIntString` | pages/track.tsx:80 | `parseInt` reads a safe integer back from its rendering and stops at the first non-digit after it, so a trailing `.5` or `e3` is ignored; a `0` followed by `x` is excluded because it reads as a hex prefix |
| `JsNumber.ParseIntSigned` | pages/track.tsx:80 | text starting with a minus sign reads as the negated magnitude of what follows |
| `JsNumber.ParseIntUnsigned` | pages/track.tsx:80 | text starting with neither white space nor a sign is read from its first character |
| `JsNumber.ParseIntEmptyIsNaN` | pages/tracking.tsx:76 | an empty field parses to NaN, and the fallback to zero turns it into 0 |
| `JsNumber.ParseIntNoDigit` | pages/tracking.tsx:81 | text that starts with something other than white space, a sign or a digit parses to NaN |
| `JsNumber.ParseIntBareHexPrefix` | pages/login.tsx:51 | `0x` with no hex digit after it is NaN, not 0 |
| `JsNumber.ParseIntHexPrefix` | pages/login.tsx:51 | without an explicit radix, `parseInt("0x1A")` reads hexadecimal and gives 26 |
| `JsNumber.TrimStartSpec` | pages/track.tsx:80 | the result is a suffix of the input that starts with a non-space; every dropped character is white space |
| `JsNumber.DigitPrefixSpec` | pages/track.tsx:80 | the longest all-digit prefix: a prefix, all digits, followed by a non-digit or the end |
| `IsoDate.DayKeyOrder` | pages/dashboard.tsx:66 | the day number orders valid dates exactly as the calendar does, in both directions, and equal numbers mean equal dates |
| `IsoDate.KeyIncreases` | pages/dashboard.tsx:66 | a calendar day earlier than another has a smaller day number |
| `IsoDate.ParseFormat` | pages/track.tsx:28 | a valid date written as `YYYY-MM-DD` reads back as the same date |
| `IsoDate.FormatParse` | pages/track.tsx:28 | text that reads as a date is exactly the zero-padded rendering of that date |
| `IsoDate.Parse` | pages/dashboard.tsx:66 | whatever parses is a real calendar day with a four-digit year |
| `Effects.FinallyIdle` | pages/login.tsx:101-103 | a trailing `finally` that clears the busy flag leaves it clear, whatever came before |
| `Effects.Wrapped` | pages/login.tsx:57-103 | the busy-flag updates around a handler body add nothing to its remote calls, alerts or navigation |
| `Effects.EarlyExit` | pages/login.tsx:61-65 | a handler that alerts, clears the flag and returns makes no remote call and shows exactly that alert |
| `Effects.OneCall` | pages/tracking.tsx:78-87 | a body that makes one remote call and then only reacts to its reply makes exactly that call |
| `Effects.Prepend` | pages/login.tsx:73-87 | filtering a trace that starts with an effect keeps that effect exactly when it is of the chosen kind |
| `Languages.Initial` | pages/login.tsx:26-29 | an absent or empty stored value keeps French; any other stored value becomes the page language, and a stored `fr` or `en` is that language itself |
| `Languages.Toggle` | pages/login.tsx:31-35 | the toggle always changes the language, always lands on fr or en, and lands on en exactly when the current code is `fr` |
| `Languages.ToggleTwice` | pages/login.tsx:31-35 | toggling twice restores the language exactly when it was fr or en |
| `Languages.TogglePersists` | pages/login.tsx:26-35 | the value a toggle persists is read back as the toggled language by the next page |
| `Login.HandleChange` | pages/login.tsx:47-53 | `targetTime` and `age` take `parseInt` of the input (NaN included), other fields the raw text, and no other field changes |
| `Login.Utf16Length` | pages/login.tsx:67 | the password length counts UTF-16 code units: between one and two per character, exactly one each inside the Basic Multilingual Plane |
| `Login.SubmitEndsIdle` | pages/login.tsx:57-103 | on every path, early returns included, the loading flag ends false |
| `Login.HandleSubmit` | pages/login.tsx:55-104 | no contract of its own; its behaviour is stated by `Login.SubmitEndsIdle`, the `Signup…` and `Login…` lemmas, and `Login.LoginIgnoresSignupFields` |
| `Login.SignupMismatch` | pages/login.tsx:61-65 | signup with differing passwords alerts the mismatch and makes no remote call, whatever the name or length |
| `Login.SignupIncomplete` | pages/login.tsx:67-71 | signup with matching passwords and an empty name or a password under six code units alerts "fill all fields" and makes no remote call |
| `Login.FiveCharacterPasswordRefused` | pages/login.tsx:67-71 | the password `abc12` is refused at signup and no account is created |
| `Login.SignupProceeds` | pages/login.tsx:73-84 | past both checks, the account is created with the form's email and password; once it exists, the profile written holds the form's name, email, category, target time, age and gender unchanged |
| `Login.Profile` | pages/login.tsx:76-84 | no contract of its own; `Login.SignupProceeds` states that the written profile holds the form's six fields and the creation time |
| `Login.SignupNavigates` | pages/login.tsx:73-87 | the submit handler itself navigates to the dashboard exactly when both the account and the profile were created |
| `Login.AfterCreateFilters` | pages/login.tsx:73-87 | after account creation, the profile is written only for an authenticated reply, and navigation follows only a stored profile |
| `Login.AfterSignInFilters` | pages/login.tsx:95-100 | whatever the sign-in reply, nothing after the sign-in attempt calls a service |
| `Login.AfterProfileFilters` | pages/login.tsx:76-87 | after the profile write no service is called, and the page navigates exactly when the profile was stored |
| `Login.LoginIncomplete` | pages/login.tsx:89-93 | login with an empty email or password alerts "fill all fields" and makes no sign-in attempt |
| `Login.LoginProceeds` | pages/login.tsx:95 | login with both fields filled makes exactly one sign-in attempt, with those two values |
| `Login.LoginIgnoresSignupFields` | pages/login.tsx:88-98 | in login mode the confirmation and the name have no effect on anything the handler does |
| `Login.InitialFormRefused` | pages/login.tsx:13-22 | the initial form is `Open`, 60, 30, `male` with empty text elsewhere, and submitting it untouched calls no service in either mode |
| `Track.StationListComplete` | pages/track.tsx:41-50 | eight distinct stations, all listed, with distinct keys that are exactly the eight stored keys |
| `Track.InitialForm` | pages/track.tsx:27-38 | the initial date is today's date as `YYYY-MM-DD`, so it is non-empty and parses back to today; all nine numeric fields are 0 |
| `Track.HandleChange` | pages/track.tsx:76-82 | the date is stored verbatim; any other field takes `parseInt(value)` or 0 when that is NaN; the other nine fields do not change |
| `Track.Record` | pages/track.tsx:97-110 | the stored document's owner is the session uid; date and total are copied; the station map has exactly the eight keys, each holding that station's form value |
| `Track.SubmitEndsIdle` | pages/track.tsx:86-121 | on every path the submitting flag ends false |
| `Track.HandleSubmit` | pages/track.tsx:84-122 | no contract of its own; its behaviour is stated by `Track.SubmitEndsIdle`, `Track.SubmitSignedOut`, `Track.SubmitWithoutDate` and `Track.SubmitWrites` |
| `Track.SubmitSignedOut` | pages/track.tsx:89 | with no session nothing is written and nothing is alerted |
| `Track.SubmitWithoutDate` | pages/track.tsx:91-95 | an empty date alerts "fill all fields" and writes nothing |
| `Track.SubmitWrites` | pages/track.tsx:97-112 | with a session and a non-empty date, exactly one document is written, built from the session uid and the form, whatever the store replies |
| `Track.AfterWriteFilters` | pages/track.tsx:114-118 | after the document write, whatever the store replied, no service is called |
| `Track.TotalTimeNotChecked` | pages/track.tsx:99-100 | a total time below the sum of the station times is written unchanged |
| `Tracking.StationListShape` | pages/tracking.tsx:10-31 | eight distinct non-empty station labels; the form starts on the first, with empty minutes, seconds and notes |
| `Tracking.HandleChange` | pages/tracking.tsx:57-63 | the named field takes the raw text and the other three are unchanged |
| `Tracking.Entry` | pages/tracking.tsx:76-87 | the stored minutes are `parseInt(minutes)`; seconds are `parseInt(seconds)`, or 0 when NaN; the total is `minutes * 60 + seconds`, exact, and NaN with NaN minutes; station, notes, date and timestamp are copied |
| `Tracking.TotalSeconds` | pages/tracking.tsx:76 | no contract of its own; what it computes is stated by `Tracking.Entry` and the lemmas below |
| `Tracking.EntryOfParsed` | pages/tracking.tsx:76-83 | with minutes and seconds parsing to integers m and s and a safe total, the entry holds m, s and the total `m * 60 + s` |
| `Tracking.EntryOfNumbers` | pages/tracking.tsx:76-83 | minutes and seconds typed as the decimal numbers m and s, with a safe total, give an entry with m, s and `m * 60 + s` |
| `Tracking.EntryWithoutSeconds` | pages/tracking.tsx:76-82 | with the seconds left empty and `m * 60` safe, the entry holds 0 seconds and the total `m * 60` |
| `Tracking.HandleSubmit` | pages/tracking.tsx:89-95 | the form is reset to its initial value when the gate passed and the store accepted the entry, and is otherwise left as it was |
| `Tracking.SubmitEndsIdle` | pages/tracking.tsx:67-103 | on every path the loading flag ends false |
| `Tracking.SubmitIncomplete` | pages/tracking.tsx:70-74 | empty minutes or an empty station give the fixed "fill all fields" alert, no write, and the form as it was |
| `Tracking.SubmitWrites` | pages/tracking.tsx:78-87 | past the gate, exactly one entry is written, whatever the store replies |
| `Tracking.SubmitNavigates` | pages/tracking.tsx:89-97 | the page moves to the dashboard exactly when the gate passed and the store accepted the entry |
| `Tracking.ResetExactlyOnSave` | pages/tracking.tsx:89-97 | the form is reset exactly when the handler's trace moves to the dashboard, and kept otherwise |
| `Tracking.AfterWriteFilters` | pages/tracking.tsx:89-101 | after the entry write, whatever the store replied, no service is called |
| `Tracking.SubmitStoresConsistentTimes` | pages/tracking.tsx:76-83 | minutes m and seconds s typed as numbers are stored as m, s and `m * 60 + s` while that total is a safe integer; s itself has no upper bound |
| `Tracking.SubmitWithoutSeconds` | pages/tracking.tsx:76-82 | empty seconds are stored as 0 and the total is `m * 60`, for a safe `m * 60` |
| `Tracking.SubmitNonNumericMinutes` | pages/tracking.tsx:70-83 | minutes that are not a number pass the gate and are written with NaN minutes and a NaN total |
| `StableSort.Sort` | pages/dashboard.tsx:66 | the result is a permutation of the input, ordered by key, largest first |
| `StableSort.Insert` | pages/dashboard.tsx:66 | inserting adds exactly the one element and keeps all the others |
| `StableSort.InsertKeepsDescending` | pages/dashboard.tsx:66 | inserting into a list ordered largest key first keeps it ordered |
| `StableSort.SortIsStable` | pages/dashboard.tsx:66 | for every key, the elements with that key keep their input order |
| `StableSort.InsertWithKey` | pages/dashboard.tsx:66 | inserting an element puts it ahead of every element that shares its key and changes their order in no other way |
| `StableSort.SortKeepsSorted` | pages/dashboard.tsx:66 | a list already in descending order is left unchanged |
| `StableSort.SortIdempotent` | pages/dashboard.tsx:66 | sorting twice gives what sorting once gave |
| `StableSort.SortThree` | pages/dashboard.tsx:66 | three elements with distinct keys come out largest key first |
| `History.SortByDate` | pages/dashboard.tsx:62-66 | the stored list is a permutation of the fetched performances, all dated, and no performance is earlier than one after it |
| `History.SortIsStable` | pages/dashboard.tsx:66 | performances on the same day keep their fetch order |
| `History.SortIdempotent` | pages/dashboard.tsx:66 | aggregating the already aggregated list changes nothing |
| `History.ChartData` | pages/dashboard.tsx:83-89 | the chart has one point per performance, in reverse order, each with that performance's date and total time |
| `History.ChartPair` | pages/dashboard.tsx:83-89 | in the chart of a list stored newest first, no point is later than a point after it |
| `History.ChartRunsForward` | pages/dashboard.tsx:83-89 | the chart of the sorted list runs in calendar order, oldest first |
| `History.Recent` | pages/dashboard.tsx:163 | the recent list is the first min(5, n) performances: a prefix of the sorted list, at most five long |
| `History.RecentStartsWithLatest` | pages/dashboard.tsx:161-163 | the first recent performance is no earlier than any fetched performance |
| `Dashboard.LoadAll` | pages/dashboard.tsx:62-65 | every loaded performance carries its document id and stored fields, in fetch order |
| `Dashboard.OnAuthState` | pages/dashboard.tsx:47-71 | signed out goes to login and ends loading; signed in sets the user; a rejected read ends the callback, keeping loading and what was set before; with both reads done, loading ends, the profile is taken if it exists and the fetched performances are stored sorted by date |
| `Dashboard.ProfileReadFailureKeepsLoading` | pages/dashboard.tsx:50-54 | a rejected profile read leaves the page on the loading view, with no profile and no performances |
| `Dashboard.QueryFailureKeepsProfile` | pages/dashboard.tsx:52-61 | a rejected performance query leaves the page on the loading view, with the profile already taken and no performances |
| `Dashboard.Render` | pages/dashboard.tsx:81-172 | the loading view exactly while loading; otherwise a profile card exactly when there is a profile, and the chart and the recent list exactly when there is a performance |
| `Dashboard.EmptyHistoryShowsPlaceholders` | pages/dashboard.tsx:141-172 | with no performances the page renders, with the placeholder in place of both the chart and the recent list |
| `Dashboard.HistoryShown` | pages/dashboard.tsx:143-168 | with performances, the chart holds one point per performance and the recent list is the first min(5, n) of the sorted list |
| `Dashboard.ProfileShownIffExists` | pages/dashboard.tsx:117-136 | the profile card is shown exactly when the profile document exists, with its name, category, target time and age |
| `Dashboard.SignedOutRedirects` | pages/dashboard.tsx:67-70 | signed out, the page heads for login with no profile and no performances |
| `Dashboard.ScenarioLoad` | pages/dashboard.tsx:62-65 | three fetched documents load in fetch order with their ids |
| `Dashboard.ScenarioDates` | pages/dashboard.tsx:66 | `2024-01-10`, `2024-01-05` and `2024-01-20` read as those calendar days |
| `Dashboard.January2024` | pages/dashboard.tsx:66 | every day of January 2024 written as `2024-01-DD` reads as that day |
| `Dashboard.ScenarioKeys` | pages/dashboard.tsx:66 | the day numbers of 5, 10 and 20 January 2024 are in that order |
| `Dashboard.ScenarioOrder` | pages/dashboard.tsx:66 | dates 10, 5 and 20 January 2024 are stored as 20, 10, 5 January |
| `Dashboard.ScenarioChart` | pages/dashboard.tsx:83-89 | the stored order 20, 10, 5 January is charted 5, 10, 20 January |
| `Dashboard.ChartScenario` | pages/dashboard.tsx:83-89 | those three sessions are charted as 5, 10, 20 January 2024 |

## Left out

- Identity provider and document store calls are not modelled as code. Each is an effect in the trace, and its reply (`AuthReply`, `StoreReply`) is an input, because they are calls into an external SDK.
- Clock readings are inputs: `new Date().toISOString()` at signup, today's date in the tracking form, and the date and time of an entry. The server-assigned `createdAt` of a performance document is not part of `PerformanceDoc`.
- `alert` and router navigation are effects in the trace, and `localStorage` is an input to `Languages.Initial`, because they are I/O. `console.error` is dropped: it changes nothing the page shows.
- JSX rendering, styling and the chart library are reduced to `Dashboard.Render`'s choice of panels, because they are UI.
- History.ChartData: the point keeps the raw `YYYY-MM-DD` text instead of `toLocaleDateString()`, because that formatting depends on the locale.
- Tracking.Entry: the `toLocaleDateString('fr-FR')` date is an input string, because that formatting depends on the locale.
- History.SortByDate: requires every date to be a calendar day. The comparator's behaviour on a malformed date (a NaN difference) is left unspecified.
- Dashboard.OnAuthState: requires every fetched date to be a calendar day when both reads succeed, for the same reason.
- Track.InitialForm: requires today's date to be a valid day with a four-digit year, because the clock is an input.
- JsNumber.ParseIntRoundTrip: `-0` and `0` are the same value, because no page tells them apart. It is stated for safe integers only: past 2^53 - 1 JavaScript rounds the result to a double, and from 10^21 `String(i)` uses exponent notation.
- JsNumber.ParseInt: the final rounding to a double is not modelled. Digit runs worth more than 2^53 - 1 are read exactly, and runs past the double range are not turned into Infinity.
- ParseIntOfIntString: stated for safe integers only, for the same reason.
- Tracking.Entry: the total `minutes * 60 + seconds` is exact, while JavaScript rounds it once it passes 2^53 - 1.
- Tracking.TotalSeconds: exact for the same reason; no page meets such a time.
- EntryOfParsed: stated for a safe minutes, seconds and total only, because JavaScript rounds past that.
- EntryOfNumbers: stated for a safe total only, for the same reason.
- EntryWithoutSeconds: stated for a safe `m * 60` only, for the same reason.
- SubmitStoresConsistentTimes: stated for a safe total only, for the same reason.
- SubmitWithoutSeconds: stated for a safe `m * 60` only, for the same reason.
- The single-station entry and the multi-station document are kept as two separate record shapes, and no compatibility between them is claimed.
- Not modelled, because it is event-loop concurrency: the subscription lifecycle, meaning `useEffect` cleanup and replies that arrive after navigation.
- The session listeners of the tracking and multi-station pages are reduced to the `user` input of their submit handlers. The multi-station listener's clearing of its loading flag is not modelled, because it only gates rendering.
- The login page's session listener is not modelled: it sends any signed-in user to the dashboard, so after an account is created the page moves there even when the profile write failed. `Login.SignupNavigates` speaks of the submit handler's own navigation only.
- The dashboard logout is not modelled, because it only signs out and redirects.
- `setup.py` is not part of this model: it writes copies of the page sources to disk.
