# recyclecalendar core, modelled in Dafny

`recyclecalendar` is a small Sinatra application. It turns a Belgian address
(postal code, street name, house number) into that address's waste-collection
calendar from recycleapp.be, as an HTML page or as an iCalendar feed. To do
so it:

1. resolves the address with the Flemish address-match API and writes an audit
   row for every lookup that does not raise;
2. chooses the street-name backend whose identifiers recycleapp.be expects,
   from a table of postal-code ranges;
3. computes the date window of the query;
4. scrapes a secret out of recycleapp.be's main script and trades it for a
   token;
5. fetches the collections and keeps the items of type "collection";
6. for the feed, builds one all-day event per pickup, with an optional reminder.

This project models that decision and transformation logic of `app.rb` and
proves its properties. Modules:

- `Text`: substring search, decimal digits, zero padding and Ruby's
  `String#to_i`.
- `Dates`: `Date` and the ActiveSupport helpers the application calls:
  `+ 1`, `beginning_of_month`, `next_month`, `end_of_year`, the weekday, and
  `strftime` with `%F` and `%A %d-%m-%Y`. `Date.parse` is modelled on ISO
  timestamps.
- `Routing`: the postal-code matrix and the scan over it.
- `Window`: the `@fromdate`/`@untildate` window.
- `Scrape`: the two regular-expression scrapes. A small regex engine covers
  exactly the two patterns used: alternation of literals, the lazy `.*?`
  (which never crosses a newline) and the leftmost match.
- `Schedule`: the filter loop of `get_pickup_dates`.
- `Ics`: `generate_ics`, with a `Calendar` class mutated by `add_event`.
- `Audit`: `add_record_to_database`, with the `addresses` table as a class
  holding a sequence of records.
- `AddressMatch`: the status and warning branching of the address lookup.
- `Pipeline`: a `RequestHandler` class holding the instance variables the
  helpers set (`@error_content`, `@zipcodeid_streetnameid_gemeentenaam`,
  `@fromdate`, `@untildate`) and the requests it sends. Its methods mirror the
  helpers. A pure `Serve` function states what one whole `get_pickup_dates`
  call does.

Every answer from outside is a parameter:

- the address-match response;
- the pages of recycleapp.be, as a function from URL to body;
- the access token, as a function of the secret sent;
- the collection items, as a function of URL and token.

"Today" is a `Date` parameter.

## Model

| member | source | states |
|---|---|---|
| Text.ToI | app.rb:191 | `String#to_i`: optional leading white space and sign, then the longest run of decimal digits, 0 when there is none (its properties: `ToIOfDigits`, `ToIOfDecimal`) |
| Text.ToIOfDigits | app.rb:191 | the modelled `to_i` of a digit string followed by anything that does not start with a digit is the value of those digits |
| Text.ToIOfDecimal | app.rb:191 | a zero-padded decimal number reads back through the modelled `to_i` as that number |
| Text.PaddedValueRoundTrip | app.rb:178 | a digit string is the zero-padded printing of its own value, so `%Y`/`%m`/`%d` fields print back exactly as read |
| Dates.FormatIso | app.rb:178 | `strftime("%F")`: the year in at least four digits, two-digit month and day, zero-padded, joined by `-` (its properties: `ParseFormatIso`, `FormatParsedIso`) |
| Dates.FormatLabel | app.rb:125 | `strftime("%A %d-%m-%Y")`: the English day name, then two-digit day and month and the year in at least four digits, joined by `-` |
| Dates.NextDay | app.rb:314 | `dt + 1` is a valid date strictly after `dt` |
| Dates.NextDayNumber | app.rb:314 | `dt + 1` is exactly one day after `dt` in the day count |
| Dates.BeginningOfMonth | app.rb:178 | `beginning_of_month` keeps year and month and is day 1 |
| Dates.EndOfYear | app.rb:184-186 | `end_of_year` is 31 December of the same year |
| Dates.NextMonth | app.rb:184 | `next_month` is the following month (January of the next year after December), with the day clamped to that month's length |
| Dates.NextDayWeekday | app.rb:125 | the weekday printed by `%A` advances by one, modulo 7, from a date to the next |
| Dates.KnownWeekday | app.rb:125 | the weekday is anchored: 5 November 2020 prints as Thursday |
| Dates.ParseIsoDate | app.rb:125 | a timestamp that `Date.parse` accepts yields a valid calendar date; a digit right after the day is read as part of the day, so such a text is not taken as that date |
| Dates.ParseFormatIso | app.rb:311 | for years up to 9999, printing a date with `%F` and parsing it back gives the same date when what follows does not start with a digit |
| Dates.LongerDayNotRead | app.rb:125 | a printed date followed by a digit does not parse as that date: the extra digit lengthens the day field |
| Dates.FormatParsedIso | app.rb:311 | a parsed timestamp's date prints with `%F` as the timestamp's first ten characters |
| Routing.FirstBackend | app.rb:190-196 | the backend of the first range of the table that includes the code, or none (its properties: `FirstBackendIsFirst`, `BackendMapping`) |
| Routing.LookupBackend | app.rb:190-196 | the `each` scan with early `return` returns the backend of the first range that includes the code, or nothing |
| Routing.FirstBackendIsFirst | app.rb:190-196 | the backend found belongs to a range that includes the code, and no earlier range includes it; there is none exactly when no range includes the code |
| Routing.MatrixPartitions | app.rb:83-87 | every code in 1000..9999 lies in exactly one range and no other code lies in any |
| Routing.BackendMapping | app.rb:83-87 | 1000-1999 go to the Brussels register, 2000-3999 and 8000-9999 to the Flemish one, 4000-7999 to the Walloon one, and other codes to none (each an if-and-only-if) |
| Window.WindowFor | app.rb:177-187 | `from` is `beginning_of_month` of today; `until` is `end_of_year` of `next_month` when the `%m` text is "12", else of today (its properties: `WindowBounds`, `WindowTextsReadBack`) |
| Window.MonthTextIsTwelve | app.rb:182-183 | the `%m` text equals "12" exactly in December |
| Window.WindowBounds | app.rb:177-187 | `from` is day 1 of today's month; `until` is 31 December of today's year, or of the next year in December; `from` is before `until` |
| Window.WindowTextsReadBack | app.rb:178-186 | for years below 9999, both window dates, printed with `%F`, parse back as themselves |
| Window.DecemberExample | app.rb:183-184 | 5 December 2024 gives the window 2024-12-01 to 2025-12-31 |
| Scrape.Capture | app.rb:147-152 | `String#[regexp, 1]`: the group of the leftmost match, or `nil` (its properties: `FirstMatchSpellsOut`, `SecretFound`, `SecretMissing`) |
| Scrape.MainScriptPath | app.rb:147 | the first `/static/js/main.` … `.chunk.js` path after `src="` or a space in the landing page, or `nil` (its property: `MainScriptPathFound`) |
| Scrape.Secret | app.rb:152 | the first shortest text between `var n="` and `",c="/api/v1/assets/"` in the script, or `nil` (its properties: `SecretFound`, `SecretMissing`) |
| Scrape.LazyRunShortest | app.rb:152 | the lazy `.*?` takes the shortest newline-free run followed by the closing literal, and fails only when no such run exists |
| Scrape.LeadRun | app.rb:147 | a run found through one alternative is a match there: the lead, the opening literal, a newline-free run and the closing literal |
| Scrape.LeadRunShortest | app.rb:147 | through one alternative the run found is the shortest, and none is found only when that alternative cannot match at all |
| Scrape.MatchAtFirst | app.rb:147 | at one position the alternation `(?:src="\| )` takes the first alternative that leads to a match, with the shortest run |
| Scrape.FirstMatchLeftmost | app.rb:147 | the search returns the leftmost position where the pattern matches, and no match anywhere when it returns none |
| Scrape.GroupOfMatch | app.rb:147 | the group of a match is its run, with the opening and closing literals around it when the pattern brackets them |
| Scrape.MatchSpellsOut | app.rb:147 | a match spells out lead, opening literal, newline-free run and closing literal, and its group is the bracketed part |
| Scrape.SpelledOutMatches | app.rb:147 | conversely, those pieces written out in a row are a match |
| Scrape.FirstMatchSpellsOut | app.rb:152 | the found match is framed text at the leftmost framed position, and no shorter run is framed there |
| Scrape.ScriptUrlShape | app.rb:151 | the script address always starts with the site; after a hit it is the site, `/static/js/main.`, a newline-free run and `.chunk.js`; after a miss (a nil path interpolated as empty) it is the landing page itself |
| Scrape.SecretFound | app.rb:152 | a scraped secret has no newline, is framed by `var n="` and `",c="/api/v1/assets/"` in the script, at the leftmost framed position and as the shortest such text |
| Scrape.SecretMissing | app.rb:152 | the secret scrape gives `nil` exactly when no newline-free text is so framed |
| Scrape.KeptGroupShape | app.rb:147 | a capture that keeps its delimiters is opening literal, newline-free run, closing literal, preceded in the page by one of the leads |
| Scrape.MainScriptPathFound | app.rb:147 | a scraped path starts with `/static/js/main.`, ends with `.chunk.js`, has no newline, and is preceded by `src="` or a space |
| Schedule.Normalize | app.rb:120-132 | the pickups of the collection items in order, or the exception of the first one whose timestamp does not parse (its properties: `NormalizeKeepsCollections`, `NormalizeFails`) |
| Schedule.PickupOf | app.rb:123-127 | a pickup is built exactly when the timestamp parses; it copies timestamp, Dutch fraction name and colour, and labels the parsed date |
| Schedule.CollectionIndices | app.rb:122 | the indices of exactly the collection items, strictly ascending |
| Schedule.CollectPickups | app.rb:120-132 | the push loop yields the specified filter result |
| Schedule.NormalizeFailureSticks | app.rb:121-130 | once building a pickup raises, the loop's result is the exception, whatever follows |
| Schedule.NormalizeFails | app.rb:125 | the filter raises exactly when some collection item's timestamp does not parse |
| Schedule.NormalizeKeepsCollections | app.rb:120-132 | the output has one pickup per collection item, in order, copying its timestamp, Dutch name and colour; it is no longer than the input |
| Schedule.NormalizedTimestampsParse | app.rb:125 | every output pickup carries a parsable timestamp |
| Schedule.OneCollectionOneOther | app.rb:122-128 | one collection item and one other item give exactly one pickup |
| Ics.EventFor | app.rb:310-326 | the event of one pickup: starts on the parsed date, ends the next day, summary the fraction, transparent, with a one-day-ahead alarm when notifications are on (its property: `EventForSpec`) |
| Ics.EventsFor | app.rb:310-328 | the events of the pickups, in order (its properties: `EventsForIndex`, `EventsForSpec`) |
| Ics.Calendar.constructor | app.rb:302 | a new calendar has no timezone and no events |
| Ics.Calendar.AddTimezone | app.rb:305-307 | the timezone block appends one timezone and leaves the events alone |
| Ics.Calendar.AddEvent | app.rb:327 | `add_event` appends the event and leaves the timezones alone |
| Ics.GenerateIcs | app.rb:300-331 | the calendar holds the configured timezone and the specified events, one per pickup in order |
| Ics.EventsForIndex | app.rb:310-328 | there is one event per pickup, and event i is the event built from pickup i |
| Ics.EventForSpec | app.rb:311-324 | an event starts on the parsed date, which prints back as the timestamp's date; it ends one day later; it is summarised by the fraction and transparent; it has an alarm exactly when notifications are 'true' or '1', with that fraction and trigger `-P1DT0H0M0S` |
| Ics.EventsForSpec | app.rb:310-328 | the same, for every event of the calendar |
| Ics.NormalizedRenders | app.rb:311 | the filter's output always renders, and each event reads back as its pickup's date and fraction |
| Audit.FormatTag | app.rb:275-282 | the tag is "web" exactly when `getpickups` has a value; "ics" exactly when only `format` has one; "undefined" exactly when neither has; a bare key has none |
| Audit.FormatTagDependsOnKeys | app.rb:275-282 | the tag is one of the three and depends only on which of the two keys carry a value |
| Audit.WebWinsOverFormat | app.rb:276-279 | a request with both keys set is tagged "web", even with an empty `getpickups`; a bare `getpickups` leaves it "ics" |
| Audit.RecordFor | app.rb:275-292 | the row inserted: postal code, street name, house number, HTTP status, warning text and format tag |
| Audit.AuditLog.constructor | app.rb:261-273 | a fresh database has no `addresses` table and no rows |
| Audit.AuditLog.Insert | app.rb:261-292 | the table exists afterwards and holds one more row, the inserted one |
| Audit.AddRecordToDatabase | app.rb:249-296 | exactly one row is appended, carrying the lookup's inputs, the status, the warning text and the format tag |
| AddressMatch.Classify | app.rb:215-244 | the branch taken: resolved with the ids of match 0 on a "200" without warnings; rejected with the first warning on a "200" with warnings, or with the status message otherwise; an exception when match 0 is missing (its property: `OutcomeCases`) |
| AddressMatch.StatusErrorText | app.rb:238 | the error text contains the status |
| AddressMatch.OutcomeCases | app.rb:215-244 | success exactly when the status contains "200", there are no warnings and there is a match, with the ids of match 0; a "200" with warnings gives the first warning's message; any other status gives a text containing the status; no match on a clean "200" raises |
| AddressMatch.AuditNoteCases | app.rb:215-244 | a record is written on every path that does not raise: "no warnings" on success, the message shown on a rejection |
| AddressMatch.OutcomeIgnoresTail | app.rb:215-229 | only the status, the first warning and the first match decide the outcome |
| AddressMatch.NotFoundExample | app.rb:236-238 | a 404 is rejected with "... HTTP status 404." |
| Pipeline.CollectionUrl | app.rb:189-196 | the URL line 193 builds with the backend of the first matching range, or none where no range matches (its property: `CollectionUrlSpec`) |
| Pipeline.ConstructAsWritten | app.rb:190-197 | what the method returns as written: that URL, or the route table when no range matches (its properties: `OutOfRangeReturnsTable`, `AsWrittenDiffersOnlyOutside`) |
| Pipeline.Serve | app.rb:99-133 | one whole `get_pickup_dates` call: the result, the requests in order and the audit rows (its properties: `ServeOrderAndAudit`, `WarningHalts`, `ServeDone`, `ServeSucceeds`) |
| Pipeline.CollectionUrlSpec | app.rb:189-196 | where a range matches, the URL is base, `?zipcodeId=` postal code `-` zipcode id, `&streetId=` backend `-` street id, `&houseNumber=`, the first of today's month, 31 December of the window's year, `&size=100`; where none matches there is no URL |
| Pipeline.OutOfRangeReturnsTable | app.rb:190-197 | as written, every postal code from "0000" to "0999" ("0999" among them) makes the helper return the route table rather than a URL, and the corrected helper gives no URL |
| Pipeline.AsWrittenDiffersOnlyOutside | app.rb:190-197 | the as-written value and the intended URL agree wherever a range matches; the table comes back exactly for codes outside every range |
| Pipeline.ServeOrderAndAudit | app.rb:99-117 | the address lookup is the first request; a token is requested exactly when the address resolved; at most one audit row, written exactly when the lookup does not raise, with the inputs, status, note and tag |
| Pipeline.WarningHalts | app.rb:227-234 | a "200" with warnings halts after the lookup, sends nothing to recycleapp.be and logs the first warning |
| Pipeline.AfterLookupDone | app.rb:101-132 | after a resolved lookup the third request is the token request with the scraped secret; pickups come back only with a URL, after exactly four requests, the last the collections query with the token answered for that secret, and they are that answer's filtered items |
| Pipeline.ServeDone | app.rb:99-132 | a request yields pickups only when the address resolved and the code is in 1000..9999; it has then sent five requests, the last for the collections URL with the token for the scraped secret, and the pickups are that answer's filtered items |
| Pipeline.ServeSucceeds | app.rb:99-133 | once the address resolved to a code in 1000..9999 there is a URL, and the request yields pickups exactly when the collections answer filters without an exception |
| Pipeline.RequestHandler.constructor | app.rb:349-354 | the object serving one request to `/` holds its configuration, parameters and date, with `@error_content`, the address info, `@fromdate` and `@untildate` all nil and nothing sent yet |
| Pipeline.RequestHandler.FetchZipcodeidStreetnameidGemeentenaam | app.rb:203-245 | sends the lookup; sets `@error_content` and halts on a rejection; raises on a clean "200" with no match; appends the specified audit row; changes nothing else |
| Pipeline.RequestHandler.ConstructRecycleappUrl | app.rb:168-197 | sends the lookup and appends its audit row; after a successful lookup, stores the address info and the `%F` window dates, and returns the URL `CollectionUrlSpec` describes, or no URL outside every range; otherwise halts (with the message shown) or raises, and leaves them as they were |
| Pipeline.RequestHandler.RouteResolved | app.rb:170-196 | stores the address info, sets the window dates and yields the URL `CollectionUrlSpec` describes; sends nothing and leaves `@error_content` alone |
| Pipeline.RequestHandler.SetWindow | app.rb:177-187 | sets `@fromdate` and `@untildate` to the `%F` texts of the window `WindowBounds` describes, and nothing else |
| Pipeline.RequestHandler.FetchRecycleappToken | app.rb:144-164 | sends the landing-page, script and token requests in that order, the last carrying the scraped secret (or none), and returns the token answered for it |
| Pipeline.RequestHandler.FetchPickups | app.rb:101-132 | gets a token, then queries the collections URL with it and filters the answer; raises without a URL; returns and sends what `AfterLookupDone` describes; leaves `@error_content`, the address info and the window dates as they were |
| Pipeline.RequestHandler.GetPickupDates | app.rb:99-133 | returns, sends and logs exactly what `Serve` specifies for the request, whose properties `ServeOrderAndAudit`, `WarningHalts`, `ServeDone` and `ServeSucceeds` state; afterwards `@error_content` holds the message shown on a rejection, and after a resolved lookup the address info and the window dates are set, as the route then reads them; the table exists once a row was written |

## Left out

- HTTP traffic (`Curl.get`), JSON parsing, the MySQL connection and the SQL
  statements: responses are parameters, the table is a sequence of records.
  Header values other than the secret and the token are not recorded.
- The database's coercion of `postalcode` and `housenumber` into `Integer`
  columns: records keep the strings passed in.
- Responses missing a key (`warnings`, `items`, `accessToken`, `fraction`),
  which raise or pass `nil` in Ruby: the parsed records always have every field.
- Configuration values that are `nil`: the configuration holds strings.
- Sinatra routing, templates, the parameter defaulting and validity check of the
  main route, and the display URLs: these are presentation glue.
- `cal.to_ical` and the VTIMEZONE contents: events are records, not text.
- `Date.today` is read three times in the source; the model reads one `today`,
  so a request straddling midnight is not modelled.
- `Date.parse` is modelled for timestamps starting `YYYY-MM-DD` with no digit
  right after the day (a longer digit run is rejected, where Ruby would read a
  longer day and then reject or reinterpret it); its other accepted formats
  are not. Dates use the proleptic Gregorian calendar, while
  Ruby's `Date` switches to the Julian calendar before 1582.
- `String#to_i` is modelled without underscores between digits and without
  radix prefixes.
- Text is a sequence of characters: no encoding or URL escaping.
- Pipeline.RequestHandler.ConstructRecycleappUrl: returns no URL outside
  every range, which is the corrected behaviour, where the code returns the
  route table (see Findings).
- No audit row is written when a clean "200" response has an empty
  `adresMatches`: indexing it raises first (app.rb:219).
- A code outside every range does not make `construct_recycleapp_url` return
  `nil`: it returns the receiver of `each`; see Findings.

## Findings

| source | as written | input that shows it | evidently intended | confidence | as-written member | corrected member |
|---|---|---|---|---|---|---|
| app.rb:190-197 | when no range of the matrix includes `postalcode.to_i`, the method ends with the value of `Hash#each`, which is the whole route table, and `get_pickup_dates` then passes that table to `Curl.get` as if it were a URL | postal code "0999" (`to_i` is 999), or any code from "0000" to "0999", with an address lookup that succeeds | no collections URL for a code outside every range | not executed; it needs the address lookup to accept such a code | Pipeline.ConstructAsWritten (Pipeline.OutOfRangeReturnsTable) | Pipeline.CollectionUrl (Pipeline.CollectionUrlSpec) |
