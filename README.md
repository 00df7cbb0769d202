# Upcoming-events feed: a Dafny model

This project models the logic of a kiosk display of upcoming studio events. Most of it is in
`scripts/fetch-events.js`, the script that builds the feed. The script pages through a Notion
database query and finds each row's fields by name, case-insensitively, falling back to the
property's kind. It turns each property into text or a date range and drops rows that have no
start date. It keeps events that have an allowed status, the studio as place, no excluded
category and a start day that is today or later. It sorts them by start and publishes the first
six. The model also covers the small pure helpers of the display page (`src/main.js`), the
slide-manifest generator (`scripts/generate-manifest.js`) and the argument parser of the
screenshot script (`scripts/capture-screenshot.js`).

Modules, one per concern:

- `Js` (js.dfy): the JavaScript primitives the code relies on: `undefined`/`null` as `Option`,
  string truthiness, `trim`, `toLowerCase`, `includes`, `startsWith`/`endsWith`, `join`,
  `filter`, `map(...).filter(Boolean)` and `String(n)` for integers.
- `NotionProps` (notion.dfy): property kinds as a datatype, `findProperty`, `textFromRich`,
  `extractPlainText` and `extractDateRange`.
- `Events` (events.dfy): the normalised event, `withEnvPriority` and the property guesses,
  normalisation of rows, the filter, `isFutureOrToday`, the stable sort and `prioritizeEvents`,
  and the whole pipeline.
- `Fetch` (fetch.dfy): `fetchAllPages` over a sequence of responses, and `main` with its
  failure paths as an outcome: the events written and the exit code.
- `Display` (display.dfy): `normalizeBase`, `getLanguageFlag`, the grid row count, `loadEvents`,
  `formatTimeWindow` and `formatPrice`.
- `Manifest` (manifest.dfy): `isSlideImage`, `collectImages` and `writeManifest`.
- `Screenshot` (screenshot.dfy): the `--key value` loop and the check for `url` and `path`.

Dates are abstract. A `Calendar` value has two functions. `parse` turns a string into a time
value, or `None` where `new Date(s)` is NaN. `midnight` gives the time value of local midnight on
the same day, which is what `setHours(0, 0, 0, 0)` computes. The current time is a parameter.
Locale formatting is also a parameter: the de-DE hour:minute formatter, the euro formatter and
the `localeCompare` collation of slide names.

## Model

| member | source | states |
|---|---|---|
| `Js.Trim` | scripts/fetch-events.js:32 | String.prototype.trim: the result is the input with white space removed from both ends only, and neither end of the result is white space |
| `Js.TrimIdempotent` | scripts/fetch-events.js:176 | trimming twice is trimming once |
| `Js.ToLower` | scripts/fetch-events.js:97-98 | toLowerCase maps every character and keeps the length |
| `Js.ToLowerIdempotent` | src/main.js:85 | lower-casing twice is lower-casing once |
| `Js.IncludesPrefixOf` | src/main.js:87 | a string containing "english" contains "engl" |
| `Js.JoinLayout` | scripts/fetch-events.js:44 | Array.prototype.join: part i starts after the parts before it and one separator after each of them, a separator follows every part but the last, and the length is the parts' lengths plus the separators'; no parts give '' |
| `Js.IntToStringRoundTrip` | scripts/fetch-events.js:46 | String(n) of an integer is a decimal numeral that reads back as n |
| `Js.Filter` | scripts/fetch-events.js:210-228 | Array.prototype.filter keeps exactly the elements that pass: each passing element as often as in the input, every other element not at all |
| `Js.FilterAppend` | scripts/fetch-events.js:211-227 | filtering a concatenation is the concatenation of the filtered parts, so the filter keeps the input order |
| `Js.MapSome` | scripts/fetch-events.js:156-192 | map-then-filter(Boolean): every output element is the non-null image of some input element |
| `Js.MapSomeAppend` | scripts/fetch-events.js:156-192 | map-then-filter works row by row, so it distributes over concatenation |
| `NotionProps.IndexOfName` | scripts/fetch-events.js:98 | the first entry, in bag order, whose name equals the alias ignoring case; none when no entry matches |
| `NotionProps.IndexOfKind` | scripts/fetch-events.js:102 | the first entry whose kind is allowed; none when no entry has an allowed kind |
| `NotionProps.NameMatchWins` | scripts/fetch-events.js:94-100 | the first alias in list order that names an entry decides the result, whatever kinds are allowed |
| `NotionProps.KindFallback` | scripts/fetch-events.js:101-102 | without a name match, the result is nothing when no kind is allowed, and otherwise the first entry of an allowed kind |
| `NotionProps.FindByNames` | scripts/fetch-events.js:96-100 | the alias loop finds something iff some alias names an entry of the row, ignoring case |
| `NotionProps.FoundByName` | scripts/fetch-events.js:96-100 | what the alias loop finds is one of the row's properties |
| `NotionProps.FindProperty` | scripts/fetch-events.js:94-103 | findProperty returns one of the row's properties; when no alias names an entry, it returns something only for a non-empty kind list, and then a property of an allowed kind |
| `NotionProps.FindPropertyScan` | scripts/fetch-events.js:94-103 | the loop with early returns computes the findProperty function |
| `NotionProps.TextFromRich` | scripts/fetch-events.js:28-32 | textFromRich is the plain texts of the runs, a missing one counting as '', joined without separator and trimmed at both ends only |
| `NotionProps.ExtractPlainText` | scripts/fetch-events.js:34-58 | extractPlainText is total, and its result is undefined exactly for a multi_select with a null payload. Title and rich_text give textFromRich of their runs. A select gives its option's name, or '' without an option. A multi_select gives its option names joined by ", ". A present number gives String(n), and an absent one ''. A formula gives the text of its result by kind: the string, String(n) of the number, the start of the date, and '' otherwise. Absent, date, status and unknown kinds give '' |
| `NotionProps.NumberTextReadsBack` | scripts/fetch-events.js:45-46 | the text of a number is a decimal numeral, with a minus sign only in front, that reads back as the number; a number formula gives the same text (line 51) |
| `NotionProps.MultiSelectListsNames` | scripts/fetch-events.js:43-44 | the text of a multi_select holds every option's name in order: name i starts after the names before it, each followed by ", ", and a ", " follows every name but the last |
| `NotionProps.OptionListLayout` | scripts/fetch-events.js:44 | the same layout for the joined option names themselves |
| `NotionProps.ExtractDateRange` | scripts/fetch-events.js:60-67 | only a date property, or a formula whose result kind is date, gives a range |
| `NotionProps.FormulaDateAsNative` | scripts/fetch-events.js:62-65 | a date formula gives the same range as a date property with that value |
| `NotionProps.FormulaDateTextIsStart` | scripts/fetch-events.js:52 | the text of a date formula is the start of its range, or '' |
| `Events.PropertyGuesses` | scripts/fetch-events.js:80-92 | each field tries its override first when set and not blank, then all of its default names in the source's order: title Title, Name; date Date of delivery, Date of Delivery, Date, Datum, Event Date; time Time, Uhrzeit, Event Time; language Language, Sprache, Lang; price Price, Preis, Kosten, Fee |
| `Events.WithEnvPriority` | scripts/fetch-events.js:77-78 | a non-blank override goes, trimmed, in front of the defaults, so its first alias is that trimmed name; a blank or absent one leaves the defaults unchanged |
| `Events.OverrideWins` | scripts/fetch-events.js:77-103 | an override that names an entry of the row selects that entry before any default alias |
| `Events.Lookup` | scripts/fetch-events.js:187 | `props.Status` finds the entry named exactly "Status", or nothing when no entry has that exact name |
| `Events.StatusName` | scripts/fetch-events.js:187 | a status name comes only from an entry named exactly "Status" whose property is a status |
| `Events.StatusOnlyFromExactKey` | scripts/fetch-events.js:187 | a row without an entry named exactly "Status" has no status |
| `Events.TrimmedNames` | scripts/fetch-events.js:175-177 | type tags are trimmed and non-empty, no more than the options; every option with a non-blank name gives its trimmed name as a tag, and every tag is the trimmed name of an option |
| `Events.TypeTags` | scripts/fetch-events.js:174-177 | there are no tags unless the type property is a multi_select with options, and every tag is non-empty and trimmed |
| `Events.NormalizeRow` | scripts/fetch-events.js:157-191 | a row gives an event iff its date range has a non-empty start. The event keeps the row id, takes that start as dateStart and the range's end as dateEnd, and reads status only from "Status". Its title is the title text when that is non-empty and 'Unbenannte Veranstaltung' otherwise; its place is the trimmed place text; its tags are the trimmed option names of the type property. Its language, time and price are the texts of the properties found for those fields among the kinds rich_text, select, multi_select; rich_text, title; and rich_text, number, formula |
| `Events.Normalize` | scripts/fetch-events.js:156-192 | normalisation never adds events, and every event it yields is well formed |
| `Events.NormalizeOne` | scripts/fetch-events.js:171-172 | a row without a start date contributes nothing, and any other row contributes its event |
| `Events.NormalizeAppend` | scripts/fetch-events.js:156-192 | normalisation distributes over concatenation of rows |
| `Events.IsFutureOrToday` | scripts/fetch-events.js:199-208 | a start that is today or later parses |
| `Events.IsFutureOrTodayIgnoresTime` | scripts/fetch-events.js:203-207 | two starts on the same local day pass or fail together |
| `Events.Keep` | scripts/fetch-events.js:212-226 | an event that passes the filter has a start that parses and a status |
| `Events.FilterEvents` | scripts/fetch-events.js:210-228 | an event survives iff its status is allowed, its place is the studio, none of its tags is excluded and it starts today or later; each survivor is kept as often as it occurs |
| `Events.FilterEventsAppend` | scripts/fetch-events.js:211-227 | the filter works on each part of the list separately and keeps the order |
| `Events.OneDisallowedTagExcludes` | scripts/fetch-events.js:217-219 | one excluded category removes an event whatever its other categories |
| `Events.AddingDisallowedTagExcludes` | scripts/fetch-events.js:153 | adding an excluded category to any event removes it from the feed |
| `Events.DisallowedOptionExcludes` | scripts/fetch-events.js:174-177 | an event whose tags come from options one of which is, trimmed and lower-cased, an excluded category is removed by the filter |
| `Events.DisallowedOptionExcludesRow` | scripts/fetch-events.js:169-219 | the same for a row: one excluded option of its type property keeps the row out of the feed, whatever its other options |
| `Events.WorkshopAndTourExcluded` | scripts/fetch-events.js:153-219 | a row typed "Workshop" and "Tour" is excluded |
| `Events.TourIsDisallowed` | scripts/fetch-events.js:153 | "Tour", trimmed and lower-cased, is an excluded category |
| `Events.WorkshopIsAllowed` | scripts/fetch-events.js:153 | a trimmed name starting with "W", such as "Workshop", is not an excluded category |
| `Events.JsDate.SetMidnight` | scripts/fetch-events.js:204 | setHours(0,0,0,0) moves a valid time to its local midnight and leaves NaN as NaN |
| `Events.CheckFutureOrToday` | scripts/fetch-events.js:199-208 | isFutureOrToday on Date objects: false for an empty or unparseable date, otherwise true iff the start's local day is not before today's |
| `Events.FilteredAreTimed` | scripts/fetch-events.js:199-202 | every event that survives the filter has a start that parses |
| `Events.SortPermutes` | scripts/fetch-events.js:195 | sorting by start neither adds nor loses events |
| `Events.SortByStartSorted` | scripts/fetch-events.js:195 | sorting yields non-decreasing start times |
| `Events.InsertSorted` | scripts/fetch-events.js:195 | inserting an event into a start-ordered list keeps it start-ordered |
| `Events.SortByStart` | scripts/fetch-events.js:195 | sorting keeps the number of events |
| `Events.Prioritize` | scripts/fetch-events.js:194-197 | prioritizeEvents yields min(n, 6) events |
| `Events.PrioritizeProperties` | scripts/fetch-events.js:194-197 | prioritizeEvents keeps min(n, 6) events in start order, all from its input, and they are the earliest: an input event left out means six were kept and it starts no earlier than the last of them |
| `Events.SortedPrefixEarliest` | scripts/fetch-events.js:196 | the first min(n, 6) events of a sorted permutation are the earliest of the input |
| `Events.InsertLast` | scripts/fetch-events.js:195 | one in-place insertion pass moves the next element into the sorted prefix and leaves the rest alone |
| `Events.PrioritizeEvents` | scripts/fetch-events.js:194-197 | the in-place sort leaves the array as the insertion sort by start orders it, and the slice is its first min(n, 6) events |
| `Events.Pipeline` | scripts/fetch-events.js:210-230 | the feed holds min(k, 6) events, k being the number of events that pass the filter |
| `Events.PipelineProperties` | scripts/fetch-events.js:156-230 | the feed holds min(k, 6) of the k events that pass the filter, well formed and in start order; each one passed the filter and came from a normalised row, and no event that passed and was left out starts before the last one in the feed |
| `Events.SelectedFromKept` | scripts/fetch-events.js:210-228 | events chosen among the filtered ones are well formed, pass the filter and come from the normalised rows |
| `Fetch.RequestsUpTo` | scripts/fetch-events.js:110-113 | each request carries page_size 100 and the cursor left by the page before it, if that cursor is truthy |
| `Fetch.Pull` | scripts/fetch-events.js:109-135 | each turn of the loop that succeeds sends at least one more request, the next carrying the current cursor, and only appends to the rows and requests so far; it sends no more requests than there are responses |
| `Fetch.FetchAll` | scripts/fetch-events.js:105-138 | a successful fetch sent at least one request, the first without a cursor, and no more than the server answered |
| `Fetch.FetchAllSucceeds` | scripts/fetch-events.js:105-138 | a successful fetch sent one request per page up to the page that stops the loop and returns those pages' rows concatenated in page order |
| `Fetch.FetchAllStopsAt` | scripts/fetch-events.js:131-135 | conversely, the loop stops at the first page that has no further cursor or brings the total to 500 or more |
| `Fetch.FetchAllCap` | scripts/fetch-events.js:109-135 | at least one request is sent, the first one without a cursor, and the total exceeds 500 by less than the last page |
| `Fetch.FetchAllFails` | scripts/fetch-events.js:125-128 | a fetch fails at the first non-success or unreadable response, or when no response is left |
| `Fetch.FetchAllPages` | scripts/fetch-events.js:105-138 | the do-while loop computes the paging function |
| `Fetch.Run` | scripts/fetch-events.js:140-247 | the exit code is 0 or 1, a failed run writes [], and no run writes more than six events |
| `Fetch.RunProperties` | scripts/fetch-events.js:140-247 | a run exits with 1 and writes [] exactly when a credential is missing or the fetch fails. Otherwise it exits with 0 and writes exactly the pipeline's feed over the fetched rows: min(k, 6) of the k events that pass the filter, the earliest ones, in start order |
| `Fetch.RunFetch` | scripts/fetch-events.js:140-247 | main as the script runs it computes that outcome |
| `Fetch.BuildFeed` | scripts/fetch-events.js:156-230 | normalising, filtering and the in-place sort and slice compute the pipeline function |
| `Fetch.SortAndSlice` | scripts/fetch-events.js:194-197 | sorting a fresh array of the events and slicing it gives prioritizeEvents |
| `Display.NormalizeBase` | src/main.js:6-10 | the result ends with '/'. An absent or empty base gives '/', a base ending in '/' is kept, and any other base gets one '/' appended |
| `Display.NormalizeBaseIdempotent` | src/main.js:6-10 | normalising a normalised base changes nothing |
| `Display.LanguageFlag` | src/main.js:84-89 | the flag is the German, the British or the globe, and the globe for no language |
| `Display.LanguageFlagCases` | src/main.js:84-89 | German flag iff the lower-cased text contains "deutsch" or "german". Otherwise the British flag iff it contains "engl", and the globe in every other case |
| `Display.LanguageFlagIgnoresCase` | src/main.js:85 | a language and its lower-cased form get the same flag |
| `Display.ColumnCount` | src/main.js:18-22 | the grid has one or two columns |
| `Display.RowCount` | src/main.js:27 | at least one row, and enough rows for every event |
| `Display.CeilDivCovers` | src/main.js:27 | Math.ceil of a quotient leaves room for the whole dividend and not a whole divisor more |
| `Display.RowCountBounds` | src/main.js:27 | at least one row, one row for no events, enough rows for every event, and no spare row |
| `Display.Screen.UpdateEventRowsVariable` | src/main.js:24-29 | with a root element, the rows variable is set from the current events and the columns; without one, nothing changes |
| `Display.Screen.RenderEvents` | src/main.js:196-202 | the current events become the given array, or none for a non-array, and the rows variable follows |
| `Display.LoadEvents` | src/main.js:274-291 | at most six items. For a successful array reply the result is the first min(len, 6) items; a non-array body, a failed status or a rejected fetch give [] |
| `Display.LoadEventsShowsSmallFeed` | src/main.js:285-286 | a feed of at most six events is shown whole, in its order |
| `Display.FormatTimeWindow` | src/main.js:157-174 | a non-blank time, trimmed, wins over any date. A missing or unparseable start gives ''. Otherwise the label starts with the start's clock time and ends with " Uhr" |
| `Display.FormatTimeWindowRange` | src/main.js:169-173 | with a parseable end that has a label, the label is "start - end Uhr" |
| `Display.KeepNumeric` | src/main.js:181 | the sanitiser keeps every character of [0-9,.-] as often as it occurs, and no other character |
| `Display.KeepNumericAppend` | src/main.js:181 | the sanitiser works character by character and keeps the order of what it keeps |
| `Display.ReplaceFirstComma` | src/main.js:182 | only the first comma becomes a point, and every other character stays |
| `Display.Sanitize` | src/main.js:179-182 | the text handed to Number() is the price's characters from [0-9,.-] in order, with the first comma turned into a point. Every digit and minus sign of the price survives, and a price without a comma only loses its other characters |
| `Display.FormatPrice` | src/main.js:176-194 | an empty or absent price gives 'Kostenlos'. A sanitised text that Number() reads is formatted as currency, and any other price is returned as written |
| `Display.PriceOfDigits` | src/main.js:176-190 | a price of plain digits is formatted as that amount |
| `Display.PriceWithDecimalComma` | src/main.js:178-183 | a decimal comma is read as a decimal point |
| `Display.PriceWithoutNumerals` | src/main.js:178-190 | a price without a numeric character sanitises to '', which Number() reads as 0, so it is formatted as zero euros |
| `Display.PriceWithTwoPoints` | src/main.js:185-193 | numeric text with two decimal points is not a number and is shown as written |
| `Display.PriceLoneMinus` | src/main.js:185-193 | a lone minus is shown as written |
| `Manifest.ProgramImageExcluded` | scripts/generate-manifest.js:30-34 | program.png in any casing is never a slide, although it has an image extension |
| `Manifest.IsSlideImage` | scripts/generate-manifest.js:30-37 | a slide is not the program image in any casing, and its name is at least as long as an image extension |
| `Manifest.SlideImageIgnoresCase` | scripts/generate-manifest.js:31 | a name and its lower-cased form are slides alike |
| `Manifest.ImageExtensionInAnyCase` | scripts/generate-manifest.js:30-36 | every other name whose lower-cased form ends in an image extension is a slide |
| `Manifest.ManifestIsNoSlide` | scripts/generate-manifest.js:6-8 | the manifest file itself is not a slide |
| `Manifest.SlideNamesMembers` | scripts/generate-manifest.js:41-44 | a name is listed iff a regular file of the directory has it and it is a slide image |
| `Manifest.SortNames` | scripts/generate-manifest.js:45 | sorting keeps the number of names |
| `Manifest.SortNamesPermutes` | scripts/generate-manifest.js:45 | whatever the collation, sorting neither adds nor drops a name |
| `Manifest.CollectImages` | scripts/generate-manifest.js:39-48 | the slide list is a permutation of the filtered names, so it holds exactly the slide names of regular files |
| `Manifest.UnescapeEscape` | scripts/generate-manifest.js:52 | JSON.parse gives back each name JSON.stringify wrote |
| `Manifest.EscapeHasNoControl` | scripts/generate-manifest.js:52 | a written name has no raw control character |
| `Manifest.ItemLines` | scripts/generate-manifest.js:52 | one line per name, in order: four spaces, then the name as a JSON string |
| `Manifest.WriteManifest` | scripts/generate-manifest.js:50-55 | the text written is the manifest text: the `images` object with two spaces of indent per level, then a newline. The count returned is the number of names written, and the array is empty exactly for no slides |
| `Manifest.ManifestListsNames` | scripts/generate-manifest.js:50-55 | every name appears in the written text on a line of its own, in list order, indented by four spaces and quoted |
| `Manifest.ManifestNamesReadBack` | scripts/generate-manifest.js:52 | on each name's line of the manifest text, what stands between the quotes reads back with JSON.parse as the name |
| `Screenshot.StripDashesOnce` | scripts/capture-screenshot.js:9 | only one leading "--" is removed from a key |
| `Screenshot.ParseArgs` | scripts/capture-screenshot.js:6-13 | the loop over positions 0, 2, 4, … computes the parameter function |
| `Screenshot.ParsedDomain` | scripts/capture-screenshot.js:10-12 | a key is a parameter iff some pair with a non-empty key and value has it; `__proto__` is never stored |
| `Screenshot.LaterPairWins` | scripts/capture-screenshot.js:12 | a parameter's value is that of the last usable pair with its key |
| `Screenshot.ParsedValuesNonEmpty` | scripts/capture-screenshot.js:11 | every stored value is non-empty |
| `Screenshot.TrailingArgumentIgnored` | scripts/capture-screenshot.js:8-11 | a trailing argument without a value is ignored |
| `Screenshot.Start` | scripts/capture-screenshot.js:15-20 | a usage error exits with 1; a capture has a non-empty url and path |
| `Screenshot.UsageWhenMissing` | scripts/capture-screenshot.js:15-20 | the usage error comes iff no usable pair names url, or none names path |
| `Screenshot.UrlAndPath` | scripts/capture-screenshot.js:6-20 | `--url U --path P` starts a capture of U into P |

## Left out

- The Notion HTTP request is not modelled: its URL, headers, JSON body encoding and
  `response.json()`. Responses are a given sequence, and running out of them stands for a
  rejected fetch. The text of the error thrown on a non-success status is not kept.
- File writes, `mkdir` and the process exit code are an outcome value (`Fetch.Outcome`), not I/O.
  So are the manifest text and its count.
- Environment variables are not read. The token, the database id and the field overrides are
  inputs.
- JavaScript `Date` parsing and local time zones are uninterpreted parameters of a `Calendar`.
- `Intl.DateTimeFormat`, `Intl.NumberFormat` and `toLocaleDateString` are parameters, and so is
  the `localeCompare` collation of the manifest. The manifest model states only that its output
  is a permutation of the filtered names.
- `Number()` is modelled only on the sanitised alphabet `[0-9,.-]`, which is the only text it
  receives there. Numbers are modelled as integers, so floating point and the exponent form of
  `String(n)` are not modelled. A decimal Notion price such as 12.5 is therefore not represented:
  neither its text from `NotionProps.ExtractPlainText` nor its formatting by `Display.FormatPrice`.
- `Js.ToLower` lower-cases Basic Latin and Latin-1 capitals only. Other scripts are not folded
  as JavaScript would fold them.
- `NotionProps.ExtractPlainText` treats a title or rich_text payload of `null` like an absent
  one. The source throws on `null` there, and on a `null` item of a multi_select payload, which
  would end the run through the catch-all. Notion does not send these shapes.
- `Events.PrioritizeEvents`: the sort is defined as the stable insertion sort (`Events.Insert` places
  an event after every event with an equal start, `Events.InsertAt`), but stability is not stated
  as a separate property over the whole sort.
- `Events.PrioritizeEvents` requires every start to parse. Its only caller passes filtered
  events, and those all parse (`Events.FilteredAreTimed`).
- DOM, SVG and CSS construction, `matchMedia`, `requestAnimationFrame` and resize handling are
  UI. `Display.Screen` keeps only the state that the row count reads and writes.
- Directory `stat`/`readdir`, and the Playwright launch, navigation and screenshot, are I/O and
  an external library.
- Console diagnostics are not modelled. This includes the property listing printed when no
  event survives.
