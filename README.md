# Forecast email content assembly

A Dafny model of the content-assembly core of the weather newsletter
(`lib/email/format.js`). The newsletter builds one email for a subscriber at
a place. The model covers the values that email is built from:

- **Temporal** (`temporal.dfy`): the ISO weekday of a zoned date (Monday = 1
  … Sunday = 7). `isWeekend` is the literal set {5, 6}, which is Friday and
  Saturday. `isWeekstart` is {1}. Both are written, as in the source, as
  `indexOf` on a small array; `Temporal.IndexOf` models JavaScript's
  `Array.prototype.indexOf`. The one-day look-ahead to the start date is
  modelled at the weekday level: Sunday wraps to Monday.
- **Icons** (`icons.dfy`): `weatherIconId`, the switch from a weather symbol
  code to one of seven icon ids. It is checked against a separate
  class table (`InIconClass`). Codes not in the table are returned
  unchanged.
- **EmailFormat** (`format.dfy`): the `locals` object as a class.
  - It is built once.
  - It then gets its start date and weekday flags (`AddLookAhead`).
  - `formatMessage` then gives it its title (`FormatMessage`). The title key
    is chosen with the weekend check first. The body is rendered from the
    locals, and the envelope (`subject`, `html`, `to`, `from`) is returned.
  - `BuildForecastEmail` is the exported function. It takes the current
    instant as a parameter.
- **Wrappers** (`wrappers.dfy`): an `Option` for the properties the source
  adds to `locals` after it is built.

External collaborators are fields of the `Collaborators` value, so they are
parameters of the model:
- the locale catalog `S.format`;
- `Place.getName`;
- `links.projectName` and `links.country`;
- the `email.pug` renderer;
- the sender address `FROM_EMAIL`.

A zoned date (`moment(...).tz(...).locale(...)`) is modelled by its ISO
weekday alone.

## Model

| member | source | states |
|---|---|---|
| `Temporal.Weekday` | lib/email/format.js:55-60 | the weekday of a date is an ISO day number in 1..7 |
| `Temporal.AddOneDay` | lib/email/format.js:143 | the day after has the next weekday; Sunday (7) is followed by Monday (1) |
| `Temporal.IndexOf` | lib/email/format.js:82 | `indexOf` gives -1 exactly when the value is absent, else the first position holding it |
| `Temporal.IsWeekend` | lib/email/format.js:80-83 | holds exactly when the weekday is 5 or 6 (Friday or Saturday) |
| `Temporal.IsWeekstart` | lib/email/format.js:84-87 | holds exactly when the weekday is 1 (Monday) |
| `Temporal.WeekendExcludesWeekstart` | lib/email/format.js:80-87 | no date is both weekend and week start |
| `Temporal.LookAheadFlags` | lib/email/format.js:143-145 | flags taken on the start date are weekend exactly when the current day is Thursday or Friday, and week start exactly when it is Sunday |
| `Icons.WeatherIconId` | lib/email/format.js:92-137 | a code maps to icon id `id` exactly when the class table lists it under `id`; the result is an icon id or the code itself |
| `Icons.IconClassesPartition` | lib/email/format.js:93-134 | every icon id is in its own class and no code is listed in two classes |
| `Icons.UnlistedCodeUnchanged` | lib/email/format.js:136 | a code in no class is returned unchanged, never an error |
| `Icons.WeatherIconIdIdempotent` | lib/email/format.js:93-136 | mapping twice gives the same result as mapping once |
| `EmailFormat.KeyName` | lib/email/format.js:24-28 | the three title keys are the catalog names `email_title`, `email_title_weekend`, `email_title_weekstart` |
| `EmailFormat.SelectTitleKey` | lib/email/format.js:24-29 | exactly one key is chosen: the weekend key iff the weekend flag is set, the week-start key iff only the week-start flag is set, the default iff neither is set |
| `EmailFormat.FromHeader` | lib/email/format.js:39 | the sender line is the project name in double quotes, a space, and the sender address in angle brackets, both embedded verbatim |
| `EmailFormat.SubjectKey` | lib/email/format.js:143-145 | the subject key for a given current day is the weekend key iff that day is Thursday or Friday, the week-start key iff it is Sunday, and the default key iff it is Monday, Tuesday, Wednesday or Saturday |
| `EmailFormat.Locals.View` | lib/email/format.js:33 | the renderer sees the current title, start date and weekday flags of the locals |
| `EmailFormat.Locals.constructor` | lib/email/format.js:46-141 | the locals pass the inputs through. The culture comes from the subscriber. The place weather title is built from the catalog. The current date is `now`. There is no start date, no flag and no title yet |
| `EmailFormat.Locals.AddLookAhead` | lib/email/format.js:143-145 | the start date is the current date plus one day, and both flags are computed from the start date, not the current date |
| `EmailFormat.Locals.FormatMessage` | lib/email/format.js:15-41 | the subject is the catalog entry for the selected key and is also stored as the locals' title before rendering; `to` is the subscriber's email verbatim; `from` is the sender line |
| `EmailFormat.RenderedView` | lib/email/format.js:66-145 | the locals handed to the renderer pass subscriber, place, forecast and holidays through unchanged, carry the current date and the subscriber's culture, have start date = tomorrow and flags of tomorrow (never both set), and hold the subject as their title |
| `EmailFormat.BuildForecastEmail` | lib/email/format.js:43-150 | the whole call: the subject is chosen by tomorrow's weekday class, the body is rendered from the completed locals, `to` is the subscriber's email, `from` embeds the project name and sender address |

## Left out

- Timezone conversion, locale binding, and `add(1, 'd')` across DST, month and year boundaries. These belong to the moment-timezone date library. A zoned date is modelled by its ISO weekday only, so the model assumes that the library's day addition advances the weekday by one.
- `format('DD-MM-YYYY')` of the start date: it is computed in `formatMessage` but never used.
- The `!date.day` branch of `weekday`: it only decides whether a raw date must first be localized, and in the model every date is already a zoned date.
- The template helper bundle (`util`: `format`, `moment`, `date`, `weekday`, `isWeekend`, `isWeekstart`, `placeName`, `symbolName`, `weatherIconId`) and the `S` and `links` handles are not fields of `ViewValues`. The helpers the template can call are the module functions; `symbolName` is an external lookup and is not modelled.
- The locale catalog, `Place.getName`, `links.projectName` and `links.country` are uninterpreted functions. The catalog is total in the model: a missing key, which would end the whole call, is not modelled. The source calls `S.format('email_title', …)` even when a weekend or week-start title replaces it; a catalog failure on that call is therefore not modelled either. Because every collaborator is a total function value, the other failures that end the whole call are not modelled either: a failing `Place.getName` or `links` call, a renderer failure, and an invalid place timezone when the current date is built.
- `placeWeatherTitle` is `util.format(S('place_weather_title', lang), name)` in the source. The model writes it as the catalog's format function applied to the key `place_weather_title`.
- The `email.pug` renderer is an uninterpreted function of the view values. Its template logic is not part of this model.
- `process.env.FROM_EMAIL` is a parameter. The case where it is unset (where `util.format` would print `undefined`) is not modelled.
- Weather symbol numbers are integers. JavaScript's strict comparison on non-integer or non-number values (which all fall through to "unchanged") is not modelled.
- The `Promise.resolve` wrapper, the logger and `utils` imports: no logic.
