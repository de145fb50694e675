# NASA APOD gateway: date validation and metadata cache

This project models the request path of the FastAPI app in `api/index.py`, which
proxies NASA's Astronomy Picture of the Day (APOD) API.

- `safe_date_input` takes the optional `date` query parameter. It parses it with
  `datetime.strptime(s, "%Y-%m-%d")` and keeps it only if it names a real
  calendar date between 1995-06-16 (the first APOD) and today. It returns that
  date in `date.isoformat()` form, or `None` for anything else.
- `index` checks that the API key is set. It then derives the cache key: the
  validated date, or the sentinel `"today"`. It serves a hit from `meta_cache`.
  On a miss it asks the upstream with `api_key`, `hd=True` and, when a date was
  validated, `date`. A failure renders an error. A success is normalised to six
  fields, stored under the key and rendered.

Modules:

- `Wrappers` (`wrappers.dfy`): `Option`.
- `Calendar` (`calendar.dfy`): Python's proleptic Gregorian `date`. It covers
  validity (years 1 to 9999, month lengths, leap years), the tuple order that
  `<` and `>` use on dates, and the day number `toordinal`. It proves that
  the tuple order is chronological order.
- `DateInput` (`date_input.dfy`): the regular expression CPython's `strptime`
  builds for `%Y-%m-%d`, given as an operational matcher (`MatchFormat`). Beside
  it is a reference definition: the set of strings the pattern reads as a given
  date (`Spellings`). Then the calendar check (`Strptime`), `isoformat` and
  `safe_date_input` itself.
- `Gateway` (`gateway.dfy`): the normalised record and the query parameters.
  `Serve` is a function giving one request's page, upstream request and new
  cache. The class `ApodApp` holds the API key and the `meta_cache` map. Its
  `Index` method is the handler, proved equal to `Serve`.

The clock is a parameter `today`. The upstream call is a parameter of type
`Params -> FetchOutcome`, and `Index` returns the request it sent (`None` when
it sent none). So "no fetch on a hit" is a statement about that result.

The code accepts more spellings than plain `YYYY-MM-DD`. `%m` and `%d` also take
one-digit values (`2024-2-3`), and `%d` takes a space-padded day
(`2024-02- 3`). All of these are canonicalised to `2024-02-03`. The model
follows the code here, not the narrower reading "input not matching
`YYYY-MM-DD` is rejected".

## Model

| member | source | states |
|---|---|---|
| `Calendar.DaysInMonth` | api/index.py:46 | a month has 28 to 31 days, and 29 exactly for February of a leap year |
| `Calendar.LessMatchesOrdinal` | api/index.py:47 | for real dates, the comparison the range check uses holds exactly when the first date's day number is smaller, and two dates are equal exactly when their day numbers are |
| `Calendar.IsLeapYear` | api/index.py:46 | the Gregorian leap-year rule `date(...)` applies inside `strptime`: divisible by 4, except centuries not divisible by 400; no `ensures`, its meaning is fixed through `DaysInMonth` and `LessMatchesOrdinal` |
| `Calendar.ValidDate` | api/index.py:46 | the triples `date(year, month, day)` accepts without `ValueError`; no `ensures`, its meaning is fixed by `StrptimeExact` and `IsoFormatRoundTrip` |
| `Calendar.Less` | api/index.py:47 | the `<` / `>` of Python dates, comparing (year, month, day) tuples; no `ensures`, `LessMatchesOrdinal` proves it is chronological order |
| `DateInput.MonthAt` | api/index.py:46 | the `%m` group read before the `-` is a month 1..12, one or two characters wide, and a `-` follows it |
| `DateInput.DayAt` | api/index.py:46 | the `%d` group is a day 1..31, one or two characters wide, inside the string |
| `DateInput.MatchFormat` | api/index.py:46 | a match yields a year 0..9999, a month 1..12 and a day 1..31 |
| `DateInput.MatchFormatSound` | api/index.py:46 | every string the pattern reads as a triple is one of that triple's spellings |
| `DateInput.MatchFormatComplete` | api/index.py:46 | every spelling of a triple is read back as exactly that triple |
| `DateInput.Strptime` | api/index.py:46 | a successful parse is a real calendar date |
| `DateInput.StrptimeExact` | api/index.py:45-51 | the parse gives `d` if and only if the string is a spelling of `d` and `d` is a real date; every other string is the `ValueError` path |
| `DateInput.IsoFormat` | api/index.py:49 | the result is ten characters `YYYY-MM-DD` and is itself a spelling of the date |
| `DateInput.IsoFormatRoundTrip` | api/index.py:46-49 | parsing the canonical form of a real date gives that date back |
| `DateInput.IsoFormatInjective` | api/index.py:49 | distinct real dates have distinct canonical forms |
| `DateInput.Truthy` | api/index.py:43 | Python truthiness of an optional string (present and non-empty), used by `if not date_str`, `if not NASA_API_KEY` (line 59), `date_val or "today"` (line 67) and `if date_val:` (line 74); no `ensures`, its uses are stated by `SafeDateInput`, `CacheKey`, `QueryParams` and `ServeWithoutKey` |
| `DateInput.InRange` | api/index.py:47-48 | the inclusive range 1995-06-16 to today; no `ensures`, its meaning in `safe_date_input` is stated by `SafeDateInputOnSpelling` and `SafeDateInputBoundaries` |
| `DateInput.SafeDateInput` | api/index.py:42-51 | absent or empty input gives `None`; any result is a canonical `YYYY-MM-DD` string, so it is non-empty |
| `DateInput.SafeDateInputOnSpelling` | api/index.py:45-49 | on a spelling of `d` the result is the canonical form of `d` when `d` is real and between 1995-06-16 and today inclusive, and `None` otherwise |
| `DateInput.SafeDateInputAcceptsOnlySpellings` | api/index.py:45-51 | any accepted string spells a real date in the range, and the result is that date's canonical form |
| `DateInput.SafeDateInputRejectsUnparsable` | api/index.py:45-51 | an unparsable string, or one naming no real date, gives `None` |
| `DateInput.SafeDateInputBoundaries` | api/index.py:47-49 | 1995-06-16 and today are both accepted, each as its own canonical form |
| `DateInput.SafeDateInputIdempotent` | api/index.py:46-49 | feeding a result back in returns the same string |
| `DateInput.SafeDateInputAcceptsExamples` | api/index.py:46-49 | `2024-2- 3` becomes `2024-02-03`; `2024-02-29` is accepted |
| `DateInput.SafeDateInputRejectsExamples` | api/index.py:46-48 | `2023-02-29` (common year) and `1995-06-15` (before the archive) give `None` |
| `DateInput.MatchFormatRejectsExamples` | api/index.py:46 | month `13` does not match, and a trailing space is left unconverted |
| `Gateway.Normalize` | api/index.py:89-96 | the six-field dict built with `data.get` (the helper `Get`) from the payload; no `ensures`, its meaning is fixed by `NormalizeFields`, `FieldsOfNormalize` and `NormalizeSeesOnlyRecordKeys` |
| `Gateway.NormalizeFields` | api/index.py:89-96 | a record is recovered from its present fields, so normalisation loses nothing of the six fields |
| `Gateway.FieldsOfNormalize` | api/index.py:89-96 | the normalised record holds exactly the payload's entries for the six keys; every other key is dropped |
| `Gateway.NormalizeSeesOnlyRecordKeys` | api/index.py:89-96 | payloads that agree on the six keys give the same record |
| `Gateway.CacheKey` | api/index.py:66-67 | the key is `"today"` exactly when `safe_date_input` rejects the date (or none was given); otherwise it is the validated date, a canonical `YYYY-MM-DD` string, so a date key never collides with the sentinel |
| `Gateway.QueryParams` | api/index.py:66-75 | `api_key` and `hd=True` are always sent; `date` is sent exactly when the cache key is not `"today"`, and then it is that key, so an answer is stored under the date it was asked for |
| `Gateway.InvalidDateServedAsToday` | api/index.py:66-67 | a request with a rejected date is served exactly like one with no date |
| `Gateway.Serve` | api/index.py:59-99 | one request to `index`: the page, the upstream request and the new cache; no `ensures`, its meaning is stated by `ServeWithoutKey`, `ServeHit`, `ServeMissRequest`, `ServeFetchFailed`, `ServeFetched` and `ServeFrame`, and `Gateway.ApodApp.Index` is proved equal to it |
| `Gateway.ServeWithoutKey` | api/index.py:59-64 | with no API key: no fetch, cache unchanged, no record, the configuration error |
| `Gateway.ServeHit` | api/index.py:70-71 | on a hit the stored record is shown, no fetch is made and the cache is unchanged |
| `Gateway.ServeMissRequest` | api/index.py:72-78 | on a miss one request is made, with `api_key`, `hd=True`, and `date` exactly when a date was validated |
| `Gateway.ServeFetchFailed` | api/index.py:77-86 | a failed fetch shows no record and a non-empty error, and the cache is unchanged |
| `Gateway.ServeFetched` | api/index.py:88-99 | a successful fetch shows the normalised record and stores it under the key; the cache gains that key only and keeps every other entry |
| `Gateway.ServeFrame` | api/index.py:59-99 | every request keeps all existing entries and adds at most its own key; it fetches exactly when the key is set and the lookup misses; a page has a record or an error, never both |
| `Gateway.RepeatedRequestIsHit` | api/index.py:70-97 | after a request that showed a record, repeating it shows the same page with no fetch, whatever the upstream would now answer |
| `Gateway.ExpiredEntryRefetched` | api/index.py:38 | once its entry has left the cache, a request fetches again with the same parameters |
| `Gateway.ApodApp.constructor` | api/index.py:20-38 | the key is read once and `meta_cache` starts empty |
| `Gateway.ApodApp.Index` | api/index.py:54-99 | the page, the request sent and the new `meta_cache` are those `Serve` gives for the old cache |
| `Gateway.ApodApp.Expire` | api/index.py:38 | an expired or evicted entry is removed and nothing else changes |

## Left out

- `app.py`, the Flask variant, is not part of this model. Only its imports
  are available, so its media mirroring, extension inference and path-traversal
  checks have no code to follow.
- The `TTLCache` timing (one hour) and its 256-entry bound are not modelled.
  Both are the `cachetools` library's behaviour. Expiry and eviction appear only
  as `Gateway.ApodApp.Expire`, an external removal of one key.
- Gateway.ServeFetched: "every other entry is kept" holds of the plain map only.
  In the source the store `meta_cache[cache_key] = apod` (api/index.py:97) is
  itself a `TTLCache` write. That write drops expired entries and, with 256
  entries held, evicts the least recently used entry (the read at
  api/index.py:71 counts as a use). So in the source other keys can disappear
  during that store, not only from outside as `Expire` models it. The same
  holds for the frame clause of `Gateway.ServeFrame`.
- An entry that expires between the `in` test and the read of `meta_cache` is
  not modelled, because the model has no clock inside a request.
- The `requests` session, its retry policy (up to 3 retries, so 4 attempts,
  on 500/502/504, backoff 0.3 s) and the 6-second timeout are not modelled. `raise_for_status` and
  `resp.json()` are folded into the `FetchOutcome` parameter as well.
- A JSON body that is not an object is not modelled. `data.get` would raise
  outside the `try` there. Payload values are reduced to strings, so an explicit
  JSON `null` reads the same as an absent key: `None` in both cases.
- `\d` in Python's regular expressions also matches non-ASCII decimal digits.
  The model reads only `0`-`9` as digits.
- `datetime.now()` is the parameter `today`, and the API key from the
  environment is the constructor argument. `.env` loading, logging, FastAPI
  routing, static files, template rendering and `/_health` are not modelled.
- Concurrent requests are not modelled. Requests are served one after another.
