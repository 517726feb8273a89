# Pickup booking: date rules and admin gates

A Dafny model of the decision logic in a small pickup-reservation web
application: a customer picks a pickup date and hour in a booking form, and
administrators reach a bookings dashboard behind a login gate.

What is modelled:

- **Booking form date rules** (`BookingForm`, over `LocalTime` and `JsArray`).
  The date picker offers a day only when all of these hold:
  - it lies between five and thirty days from now, both ends included;
  - it is not a Saturday or Sunday;
  - it is not a holiday.
  A date is a holiday when some entry of the holiday list falls on the same
  local day of the month, month and year. The built-in holiday list is
  3, 4 and 5 May 2023. The list is empty until it has been loaded.
- **Booking form hours** (`BookingForm.ExcludeTimes`). The picker greys out
  hours of the chosen day. With an empty availability list it greys out
  nothing. Otherwise it greys out every hour from 9 to 17 that no entry
  offers.
- **Session gate** (`SessionGate`, app/middleware.ts). The login route is
  tested before the admin prefix. A visitor who has a session is sent from
  the login route to the dashboard. A visitor without one is sent from any
  other admin route to the login route. Everything else passes. The
  middleware is configured only for `/admin/:path*` and `/admin-login`. This
  file is not at the project root, so the framework does not run it; it is
  modelled as the alternative design it is.
- **Cookie gate** (`CookieGate`, middleware.ts, the one the framework runs).
  Any path that starts with `/admin` needs the `admin_authenticated` cookie.
  Only its presence is tested. The login endpoint sets it to `true`.

Time is modelled without a calendar. An instant is an integer number of
milliseconds, as JavaScript compares `Date` values. The browser's local
time zone is an input (`LocalTime.Zone`). It maps an instant to its local
year, zero-based month and day, and to its weekday (0 is Sunday). It also
maps a local date to the instant that day begins. `LocalTime.Coherent`
states the two facts the proofs rely on: a weekday is one of seven, and the
day a valid date begins is that date, for years 100 to 275 759 (what
`new Date(year, month, day)` keeps as given). `addDays(t, n)` is `t + n` whole days
of 24 hours. The current instant (`new Date()`) is a parameter.

There is no server-side availability calculator or booking validator in the
code. The form fetches its availability list from an endpoint that is not
part of this model. The booking endpoint, app/api/booking/route.ts, inserts a
row without checking it. The pickup-date rules therefore exist only in the
browser, as the date picker's filter. The availability list is an input
sequence of `TimeSlot` values (lib/types.ts:12-15).

## Model

| member | source | states |
|---|---|---|
| `LocalTime.IsWeekend` | components/BookingForm.tsx:87 | date-fns `isWeekend`: local weekday 0 (Sunday) or 6 (Saturday); characterised by `LocalTime.NotWeekendIsMondayToFriday` |
| `LocalTime.NotWeekendIsMondayToFriday` | components/BookingForm.tsx:87 | in a coherent zone, "not a weekend day" holds exactly on weekdays 1 (Monday) to 5 (Friday) |
| `JsArray.From` | components/BookingForm.tsx:220 | `Array.from({ length: n }, f)` has length n and holds f(i) at index i; its use is characterised by `BookingForm.PickerHours` |
| `JsArray.Some` | components/BookingForm.tsx:73-77 | `some` is true exactly when at least one element passes the predicate |
| `JsArray.Filter` | components/BookingForm.tsx:220-221 | `filter` keeps every element that passes, and only elements of the input that pass, never more than the input holds |
| `JsArray.FilterKeepsAscending` | components/BookingForm.tsx:220-221 | filtering a strictly ascending list leaves it strictly ascending |
| `JsArray.FilterKeepsAll` | components/BookingForm.tsx:220-221 | a filter every element passes returns its input unchanged |
| `BookingForm.IsHoliday` | components/BookingForm.tsx:72-78 | a date is a holiday exactly when some listed holiday has the same local year, month and day of the month |
| `BookingForm.IsHolidayMeansListedDay` | components/BookingForm.tsx:72-78 | a date is a holiday exactly when its local day is in the set of the list's local days |
| `BookingForm.HolidayIgnoresTimeOfDay` | components/BookingForm.tsx:72-78 | two instants on the same local day are both holidays or both not: the time of day is ignored |
| `BookingForm.NoHolidaysInitially` | components/BookingForm.tsx:26 | with the initial empty holiday list, no date is a holiday |
| `BookingForm.BuiltInHolidays` | components/BookingForm.tsx:11-19 | the three `new Date(2023, 4, 3..5)` entries; their meaning is given by `BookingForm.BuiltInHolidaysAreEarlyMay2023` |
| `BookingForm.BuiltInHolidaysAreEarlyMay2023` | components/BookingForm.tsx:11-19 | with the built-in list, a date is a holiday exactly when its local day is 3, 4 or 5 May 2023 (month index 4) |
| `BookingForm.FilterAvailableDates` | components/BookingForm.tsx:80-90 | the picker's date filter; characterised by `BookingForm.FilterAvailableDatesExactly` and the four lemmas below it |
| `BookingForm.AcceptedDateInWindow` | components/BookingForm.tsx:80-86 | every selectable date lies between now + 5 days and now + 30 days |
| `BookingForm.WindowEndsAreInclusive` | components/BookingForm.tsx:82-86 | the instants exactly 5 and exactly 30 days from now are selectable on a working non-holiday day: both bounds are inclusive |
| `BookingForm.WeekendsRejected` | components/BookingForm.tsx:87 | no Saturday or Sunday is selectable, whatever the window says |
| `BookingForm.HolidaysRejected` | components/BookingForm.tsx:88 | no date on a listed holiday's local day is selectable, whatever the window and weekday say |
| `BookingForm.TooSoonAndTooFarRejected` | components/BookingForm.tsx:82-86 | two days from now and forty days from now are both refused |
| `BookingForm.FilterAvailableDatesExactly` | components/BookingForm.tsx:80-90 | a date is selectable if and only if it is 5 to 30 days from now inclusive, falls Monday to Friday, and is not on a holiday's local day |
| `BookingForm.Offered` | components/BookingForm.tsx:221 | an hour is offered exactly when some availability entry has that hour |
| `BookingForm.PickerHours` | components/BookingForm.tsx:214-215 | the candidate hours are exactly the hours of the picker's 9:00 to 17:00 range, each once, strictly ascending |
| `BookingForm.FilteredPickerHours` | components/BookingForm.tsx:220-221 | after filtering, an hour remains exactly when it is between 9 and 17 and not offered, and the remaining hours are strictly ascending |
| `BookingForm.ExcludeTimes` | components/BookingForm.tsx:214-224 | an empty availability list excludes nothing; otherwise an hour is excluded if and only if it lies in 9..17 and no entry has it; the result is strictly ascending, at most nine long, within minTime 9 and maxTime 17 |
| `BookingForm.AllHoursOfferedExcludesNothing` | components/BookingForm.tsx:219-222 | when every hour from 9 to 17 is offered, no hour is greyed out |
| `BookingForm.NoPickerHourOfferedExcludesAll` | components/BookingForm.tsx:219-222 | a non-empty list offering none of the hours 9 to 17 greys out all nine, in order |
| `Routing.LoginPathHasAdminPrefix` | middleware.ts:5-9 | the redirect target `/admin-login` itself starts with `/admin` |
| `Routing.DashboardPathPrefixes` | app/middleware.ts:56-66 | `/admin/dashboard` starts with `/admin` and does not start with `/admin-login` |
| `SessionGate.Decide` | app/middleware.ts:53-71 | the redirect decision once the session is known; characterised by the decision-table lemmas below and by `SessionGate.NeverRedirectsToItself` and `SessionGate.AtMostOneRedirect` |
| `SessionGate.Matched` | app/middleware.ts:74-76 | the matcher `['/admin/:path*', '/admin-login']`; characterised by `SessionGate.MatchedPathsAreAdminPaths` and `SessionGate.UnmatchedAdminLookalikePasses` |
| `SessionGate.Handle` | app/middleware.ts:74-76 | the decision applied only to matched paths; characterised by `SessionGate.HandledRedirectsSettle` |
| `SessionGate.LoggedInVisitorLeavesLogin` | app/middleware.ts:56-58 | a login-prefixed path with a session is redirected to `/admin/dashboard` |
| `SessionGate.AnonymousVisitorSeesLogin` | app/middleware.ts:56-61 | a login-prefixed path without a session passes |
| `SessionGate.AnonymousVisitorSentToLogin` | app/middleware.ts:64-66 | an admin path outside the login prefix without a session is redirected to `/admin-login` |
| `SessionGate.LoggedInVisitorPassesAdmin` | app/middleware.ts:64-69 | an admin path outside the login prefix with a session passes |
| `SessionGate.OtherPathsPass` | app/middleware.ts:56-71 | a path without the admin prefix passes with or without a session |
| `SessionGate.NeverRedirectsToItself` | app/middleware.ts:56-67 | no request is redirected to the path it asked for |
| `SessionGate.AtMostOneRedirect` | app/middleware.ts:56-69 | with the session unchanged, the target of a redirect passes: at most one redirect in a row |
| `SessionGate.MatchedPathsAreAdminPaths` | app/middleware.ts:74-76 | every path the matcher admits starts with `/admin` |
| `SessionGate.HandledRedirectsSettle` | app/middleware.ts:53-76 | with the matcher applied, no request is redirected to itself and a redirect's target passes |
| `SessionGate.UnmatchedAdminLookalikePasses` | app/middleware.ts:64-76 | `/administrator` would be redirected by the decision but passes because the matcher does not admit it |
| `CookieGate.Middleware` | middleware.ts:4-13 | the root gate as written; characterised by the lemmas below, `CookieGate.OnlyPrefixAndPresenceMatter` above all |
| `CookieGate.MiddlewareExemptingLogin` | middleware.ts:4-13 | the gate with the login route exempted; characterised by `CookieGate.ExemptingLoginSettles` and `CookieGate.ExemptingLoginAgreesElsewhere` |
| `CookieGate.AfterLogin` | app/api/login/route.ts:6-13 | after login the cookie names are the old ones plus `admin_authenticated`, which holds `true`, and every other cookie keeps its value |
| `CookieGate.AnonymousAdminRequestRedirected` | middleware.ts:5-9 | an `/admin`-prefixed path without the cookie is redirected to `/admin-login` |
| `CookieGate.NonAdminPathsPass` | middleware.ts:5-12 | a path without the `/admin` prefix passes, with or without the cookie |
| `CookieGate.CookiePresencePasses` | middleware.ts:6-12 | with the cookie present every path passes, even when its value is empty |
| `CookieGate.OnlyPrefixAndPresenceMatter` | middleware.ts:4-13 | two requests that agree on the prefix test and on cookie presence get the same answer |
| `CookieGate.LoginPageRedirectsToItself` | middleware.ts:5-9 | an anonymous request for `/admin-login` is redirected to `/admin-login` |
| `CookieGate.LoginOpensEveryPath` | middleware.ts:6-12 | after the login endpoint has set its cookie, every path passes |
| `CookieGate.ExemptingLoginSettles` | middleware.ts:5-9 | the gate with the login route exempted never redirects a request to itself, and its redirect target passes |
| `CookieGate.ExemptingLoginAgreesElsewhere` | middleware.ts:4-13 | the exempting gate answers as the written one on every path outside the login prefix, and still lets every path through after login |

## Findings

| source | as written | input that shows it | evidently intended | confidence | as-written member | corrected member |
|---|---|---|---|---|---|---|
| middleware.ts:5-9 | the `/admin` prefix test also covers the redirect target `/admin-login` | a request for `/admin-login` without the `admin_authenticated` cookie is redirected to `/admin-login`, and so again on every retry | exempt the login route from the cookie test, as app/middleware.ts:56-61 does | high; not executed | `CookieGate.LoginPageRedirectsToItself` | `CookieGate.ExemptingLoginSettles` |

The login form among the files shown is served at `/login`
(app/login/page.tsx), and none is served at `/admin-login`; the model takes
the routes the two gates name as they are written.

## Left out

- The React component around the rules: rendering, `useState` and `useEffect`, the URL parameters, and `handleSubmit` with its error and loading states.
- The network calls: the availability fetch and the booking POST of components/BookingForm.tsx, the booking endpoint app/api/booking/route.ts (an insert with no checks), and the Supabase queries of the dashboard.
- The asynchronous loading of holidays: `getJapaneseHolidays` is modelled as the constant list it returns.
- `BookingForm.ExcludeTimes`: the final `.map` turns each hour into a `Date` today at that hour with minutes 0; the model returns the hours themselves, since that is all the picker compares.
- `BookingForm.ExcludeTimes`: a slot's `hour` is an integer; JavaScript numbers that are not integers are not modelled.
- `LocalTime.AddDays`: date-fns `addDays` keeps the local wall-clock time, so across a daylight-saving change it differs from adding 24-hour days; daylight saving is not modelled.
- `LocalTime.Zone`: no calendar is computed; local dates and weekdays come from the zone, constrained only by `LocalTime.Coherent`.
- The date picker's own `minDate` and `maxDate` bounds (components/BookingForm.tsx:211-212) repeat the filter's window and are not modelled separately.
- The Supabase cookie adapter of app/middleware.ts (lines 7-51) and `getSession`: whether a session exists is a boolean input.
- `SessionGate.Matched`: the framework's route-pattern rules are reduced to `/admin`, paths below `/admin/`, and `/admin-login`; trailing-slash and locale handling are not modelled.
- The login cookie's attributes other than name and value (path, one-hour expiry, `httpOnly`, `secure`, `sameSite`): cookies never expire in the model.
- The admin list and calendar views, the summary modal, the pages and the demo-data script: display code and random test data.
- Concurrent submissions and double booking: nothing in the code prevents them, and nothing here models them.
