/**
 * The normalised event record and the pipeline of scripts/fetch-events.js
 * that turns database rows into the published feed: property guesses with
 * operator overrides, normalisation of each row (rows without a start date
 * are dropped), the status/place/category/date filter, and the selection of
 * the earliest events in start order.
 *
 * Dates are abstract: a Calendar gives the parse of an ISO string to a time
 * value (None where JavaScript's Date gives NaN) and the time value of local
 * midnight on the same day (setHours(0, 0, 0, 0)).
 */
module Events {
  import opened Js
  import opened NotionProps

  datatype Calendar = Calendar(parse: string -> Option<int>, midnight: int -> int)

  /** A database row: its id and its property bag (absent properties are an empty bag). */
  datatype Row = Row(id: string, properties: Option<Bag>)

  /** A normalised event; None in language/time/price is JavaScript's undefined, in
      dateEnd and status it is null. */
  datatype Event = Event(
    id: string,
    title: string,
    dateStart: string,
    dateEnd: Option<string>,
    language: Option<string>,
    time: Option<string>,
    price: Option<string>,
    status: Option<string>,
    place: string,
    typeTags: seq<string>)

  const DefaultTitle := "Unbenannte Veranstaltung"
  const AllowedStatuses: set<string> := {"ready", "make ready", "promote"}
  const AllowedPlace := "studio"
  const DisallowedTypes: set<string> := {"event", "internal", "external", "tour"}
  const MaxEvents := 6

  // ---------------------------------------------------------------------
  // Property guesses

  /** The operator's property-name overrides, one per field (None when unset). */
  datatype Overrides = Overrides(
    title: Option<string>, date: Option<string>, time: Option<string>,
    language: Option<string>, price: Option<string>)

  datatype Guesses = Guesses(
    title: seq<string>, date: seq<string>, time: seq<string>,
    language: seq<string>, price: seq<string>)

  /** withEnvPriority: a non-blank override, trimmed, is tried before the defaults. */
  function WithEnvPriority(envName: Option<string>, defaults: seq<string>): (r: seq<string>)
    ensures envName.Some? && Trim(envName.value) != "" ==>
              r == [Trim(envName.value)] + defaults && r[0] != "" && Unpadded(r[0])
    ensures envName.None? || Trim(envName.value) == "" ==> r == defaults
  {
    if envName.Some? && envName.value != "" && Trim(envName.value) != "" then [Trim(envName.value)] + defaults
    else defaults
  }

  /** An override that names an entry of the row selects it, before any default alias. */
  lemma OverrideWins(bag: Bag, envName: Option<string>, defaults: seq<string>, allowed: seq<string>)
    requires envName.Some? && Trim(envName.value) != ""
    requires IndexOfName(bag, Trim(envName.value)).Some?
    ensures FindProperty(bag, WithEnvPriority(envName, defaults), allowed)
            == Some(bag[IndexOfName(bag, Trim(envName.value)).value].1)
  {
    NameMatchWins(bag, WithEnvPriority(envName, defaults), allowed, 0);
  }

  /** The default names tried for each field, in the order they are tried. */
  const TitleAliases: seq<string> := ["Title", "Name"]
  const DateAliases: seq<string> := ["Date of delivery", "Date of Delivery", "Date", "Datum", "Event Date"]
  const TimeAliases: seq<string> := ["Time", "Uhrzeit", "Event Time"]
  const LanguageAliases: seq<string> := ["Language", "Sprache", "Lang"]
  const PriceAliases: seq<string> := ["Price", "Preis", "Kosten", "Fee"]

  /** The property names tried per field: the field's override when it is set and not blank,
      then the field's default names, which are always all tried and always last. */
  function PropertyGuesses(o: Overrides): (r: Guesses)
    ensures r.title == WithEnvPriority(o.title, TitleAliases)
    ensures r.date == WithEnvPriority(o.date, DateAliases)
    ensures r.time == WithEnvPriority(o.time, TimeAliases)
    ensures r.language == WithEnvPriority(o.language, LanguageAliases)
    ensures r.price == WithEnvPriority(o.price, PriceAliases)
    ensures EndsWithAliases(r.title, TitleAliases) && EndsWithAliases(r.date, DateAliases)
            && EndsWithAliases(r.time, TimeAliases) && EndsWithAliases(r.language, LanguageAliases)
            && EndsWithAliases(r.price, PriceAliases)
  {
    Guesses(
      WithEnvPriority(o.title, TitleAliases),
      WithEnvPriority(o.date, DateAliases),
      WithEnvPriority(o.time, TimeAliases),
      WithEnvPriority(o.language, LanguageAliases),
      WithEnvPriority(o.price, PriceAliases))
  }

  /** `names` is `defaults` after at most one name tried first. */
  predicate EndsWithAliases(names: seq<string>, defaults: seq<string>) {
    |defaults| <= |names| <= |defaults| + 1 && names[|names| - |defaults|..] == defaults
  }

  // ---------------------------------------------------------------------
  // Normalisation

  /** `props.Status`: the entry named exactly "Status". */
  function Lookup(bag: Bag, key: string): (r: Option<Property>)
    ensures r.Some? ==> exists j :: 0 <= j < |bag| && bag[j] == (key, r.value)
    ensures r.None? ==> forall j :: 0 <= j < |bag| ==> bag[j].0 != key
  {
    if bag == [] then None
    else if bag[0].0 == key then Some(bag[0].1)
    else Lookup(bag[1..], key)
  }

  /** The name of the option chosen in the status property named "Status"; None when there
      is no such property, it is of another kind, or no option or name is set. */
  function StatusName(bag: Bag): (r: Option<string>)
    ensures r.Some? ==> exists j :: 0 <= j < |bag| && bag[j].0 == "Status" && bag[j].1.Status?
  {
    match Lookup(bag, "Status")
    case Some(Status(Some(o))) => o.name
    case _ => None
  }

  /** An option's name without surrounding white space; the empty text when it has no name. */
  function TrimmedName(o: SelectOption): string {
    if o.name.Some? then Trim(o.name.value) else ""
  }

  /** `rawTypes.map((item) => item?.name?.trim()).filter(Boolean)`: the non-empty trimmed
      names, and every one of them. */
  function TrimmedNames(options: seq<SelectOption>): (r: seq<string>)
    ensures forall i :: 0 <= i < |r| ==> r[i] != "" && Unpadded(r[i])
    ensures |r| <= |options|
    ensures forall k :: 0 <= k < |options| && TrimmedName(options[k]) != "" ==> TrimmedName(options[k]) in r
    ensures forall i :: 0 <= i < |r| ==> exists k :: 0 <= k < |options| && r[i] == TrimmedName(options[k])
  {
    var names := seq(|options|, k requires 0 <= k < |options| => TrimmedName(options[k]));
    var r := Filter(names, (t: string) => t != "");
    forall i | 0 <= i < |r| ensures exists k :: 0 <= k < |options| && r[i] == TrimmedName(options[k]) {
      var k :| 0 <= k < |names| && names[k] == r[i];
    }
    forall k | 0 <= k < |options| && TrimmedName(options[k]) != "" ensures TrimmedName(options[k]) in r {
      assert names[k] in names;
    }
    r
  }

  /** `typeProp?.multi_select ?? []`, trimmed: no tags unless the property is a multi-select
      with options. */
  function TypeTags(typeProp: Option<Property>): (r: seq<string>)
    ensures !(typeProp.Some? && typeProp.value.MultiSelect? && typeProp.value.options.Some?) ==> r == []
    ensures forall i :: 0 <= i < |r| ==> r[i] != "" && Unpadded(r[i])
  {
    match typeProp
    case Some(MultiSelect(Some(options))) => TrimmedNames(options)
    case _ => []
  }

  /** The date range of a row, by the date guesses. */
  function RowDate(row: Row, g: Guesses): Option<DateRange> {
    ExtractDateRange(FindProperty(Props(row), g.date, ["date", "formula"]))
  }

  /** The row's property bag; a row without one has no properties. */
  function Props(row: Row): Bag {
    if row.properties.Some? then row.properties.value else []
  }

  /** The property each field is read from. */
  function TitleProp(row: Row, g: Guesses): Option<Property> {
    FindProperty(Props(row), g.title, ["title"])
  }

  function TimeProp(row: Row, g: Guesses): Option<Property> {
    FindProperty(Props(row), g.time, ["rich_text", "title"])
  }

  function LanguageProp(row: Row, g: Guesses): Option<Property> {
    FindProperty(Props(row), g.language, ["rich_text", "select", "multi_select"])
  }

  function PriceProp(row: Row, g: Guesses): Option<Property> {
    FindProperty(Props(row), g.price, ["rich_text", "number", "formula"])
  }

  function PlaceProp(row: Row): Option<Property> {
    FindProperty(Props(row), ["place", "location"], ["select"])
  }

  function TypeProp(row: Row): Option<Property> {
    FindProperty(Props(row), ["Type", "type"], ["multi_select"])
  }

  /** What the normalised feed requires of every event. */
  predicate WellFormed(e: Event) {
    && e.dateStart != ""
    && e.title != ""
    && Unpadded(e.place)
    && (forall i :: 0 <= i < |e.typeTags| ==> e.typeTags[i] != "" && Unpadded(e.typeTags[i]))
  }

  /** The `.map` step for one row; None is the null that `.filter(Boolean)` drops. */
  function NormalizeRow(row: Row, g: Guesses): (r: Option<Event>)
    ensures r.Some? <==> RowDate(row, g).Some? && Truthy(RowDate(row, g).value.start)
    ensures r.Some? ==> WellFormed(r.value) && r.value.id == row.id
    ensures r.Some? ==> r.value.dateStart == RowDate(row, g).value.start.value
    ensures r.Some? ==> r.value.status == StatusName(Props(row))
    ensures r.Some? ==> r.value.dateEnd == RowDate(row, g).value.end
    ensures r.Some? ==> r.value.typeTags == TypeTags(TypeProp(row))
    ensures r.Some? ==> r.value.language == ExtractPlainText(LanguageProp(row, g))
    ensures r.Some? ==> r.value.time == ExtractPlainText(TimeProp(row, g))
    ensures r.Some? ==> r.value.price == ExtractPlainText(PriceProp(row, g))
    ensures r.Some? ==> r.value.place == Trim(OrEmpty(ExtractPlainText(PlaceProp(row))))
    ensures r.Some? && Truthy(ExtractPlainText(TitleProp(row, g))) ==>
              r.value.title == ExtractPlainText(TitleProp(row, g)).value
    ensures r.Some? && !Truthy(ExtractPlainText(TitleProp(row, g))) ==> r.value.title == DefaultTitle
  {
    var props := Props(row);
    var titleProp := TitleProp(row, g);
    var timeProp := TimeProp(row, g);
    var languageProp := LanguageProp(row, g);
    var priceProp := PriceProp(row, g);
    var placeProp := PlaceProp(row);
    var typeProp := TypeProp(row);
    var range := RowDate(row, g);
    if range.None? || !Truthy(range.value.start) then None
    else
      var title := ExtractPlainText(titleProp);
      Some(Event(
        row.id,
        if Truthy(title) then title.value else DefaultTitle,
        range.value.start.value,
        range.value.end,
        ExtractPlainText(languageProp),
        ExtractPlainText(timeProp),
        ExtractPlainText(priceProp),
        StatusName(props),
        Trim(OrEmpty(ExtractPlainText(placeProp))),
        TypeTags(typeProp)))
  }

  /** Every row normalised in turn, keeping the events of the rows that give one, in order. */
  function Normalize(rows: seq<Row>, g: Guesses): (r: seq<Event>)
    ensures |r| <= |rows|
    ensures forall i :: 0 <= i < |r| ==> WellFormed(r[i])
  {
    var r := MapSome(rows, (row: Row) => NormalizeRow(row, g));
    assert forall i :: 0 <= i < |r| ==> WellFormed(r[i]) by {
      forall i | 0 <= i < |r| ensures WellFormed(r[i]) {
        var k :| 0 <= k < |rows| && NormalizeRow(rows[k], g) == Some(r[i]);
      }
    }
    r
  }

  /** Normalisation works row by row: it distributes over concatenation. */
  lemma NormalizeAppend(a: seq<Row>, b: seq<Row>, g: Guesses)
    ensures Normalize(a + b, g) == Normalize(a, g) + Normalize(b, g)
  {
    MapSomeAppend(a, b, (row: Row) => NormalizeRow(row, g));
  }

  /** A row without a start date contributes nothing; one with a start date contributes its event. */
  lemma NormalizeOne(row: Row, g: Guesses)
    ensures !(RowDate(row, g).Some? && Truthy(RowDate(row, g).value.start)) ==> Normalize([row], g) == []
    ensures RowDate(row, g).Some? && Truthy(RowDate(row, g).value.start) ==>
              Normalize([row], g) == [NormalizeRow(row, g).value]
  {
    assert [row][1..] == [];
    assert MapSome([row][1..], (r: Row) => NormalizeRow(r, g)) == [];
  }

  /** The status comes only from the entry named exactly "Status" (not "status", not by kind). */
  lemma StatusOnlyFromExactKey(bag: Bag)
    requires forall j :: 0 <= j < |bag| ==> bag[j].0 != "Status"
    ensures StatusName(bag) == None
  {
  }

  // ---------------------------------------------------------------------
  // Filtering

  /** isFutureOrToday: the start parses and its local day is not before today's. */
  predicate IsFutureOrToday(isoDate: string, cal: Calendar, now: int)
    ensures IsFutureOrToday(isoDate, cal, now) ==> cal.parse(isoDate).Some?
  {
    isoDate != "" && cal.parse(isoDate).Some?
    && cal.midnight(cal.parse(isoDate).value) >= cal.midnight(now)
  }

  predicate HasAllowedStatus(e: Event) {
    ToLower(Trim(OrEmpty(e.status))) in AllowedStatuses
  }

  predicate MatchesPlace(e: Event) {
    ToLower(e.place) == AllowedPlace
  }

  predicate HasAllowedType(e: Event) {
    forall i :: 0 <= i < |e.typeTags| ==> ToLower(Trim(e.typeTags[i])) !in DisallowedTypes
  }

  /** The filter predicate of the pipeline. */
  predicate Keep(e: Event, cal: Calendar, now: int)
    ensures Keep(e, cal, now) ==> cal.parse(e.dateStart).Some? && e.status.Some?
  {
    assert e.status.None? ==> ToLower(Trim(OrEmpty(e.status))) == "";
    HasAllowedStatus(e) && MatchesPlace(e) && HasAllowedType(e) && IsFutureOrToday(e.dateStart, cal, now)
  }

  /** The events that pass the keep test, in their order. */
  function FilterEvents(es: seq<Event>, cal: Calendar, now: int): (r: seq<Event>)
    ensures forall i :: 0 <= i < |r| ==> Keep(r[i], cal, now)
    ensures forall e :: e in es && Keep(e, cal, now) ==> e in r
    ensures multiset(r) <= multiset(es)
    ensures forall e :: e in es ==> multiset(r)[e] == if Keep(e, cal, now) then multiset(es)[e] else 0
  {
    Filter(es, (e: Event) => Keep(e, cal, now))
  }

  /** The filter keeps the order of the events: it works on each part of a list separately. */
  lemma FilterEventsAppend(a: seq<Event>, b: seq<Event>, cal: Calendar, now: int)
    ensures FilterEvents(a + b, cal, now) == FilterEvents(a, cal, now) + FilterEvents(b, cal, now)
  {
    FilterAppend(a, b, (e: Event) => Keep(e, cal, now));
  }

  /** Only the day counts: two starts on the same local day pass or fail together. */
  lemma IsFutureOrTodayIgnoresTime(a: string, b: string, cal: Calendar, now: int)
    requires a != "" && b != "" && cal.parse(a).Some? && cal.parse(b).Some?
    requires cal.midnight(cal.parse(a).value) == cal.midnight(cal.parse(b).value)
    ensures IsFutureOrToday(a, cal, now) == IsFutureOrToday(b, cal, now)
  {
  }

  /** One disallowed category excludes an event, whatever its other categories are. */
  lemma OneDisallowedTagExcludes(e: Event, cal: Calendar, now: int, i: nat)
    requires i < |e.typeTags| && ToLower(Trim(e.typeTags[i])) in DisallowedTypes
    ensures !Keep(e, cal, now)
  {
  }

  /** Adding a disallowed category to an event removes it from the feed. */
  lemma AddingDisallowedTagExcludes(e: Event, tag: string, cal: Calendar, now: int)
    requires ToLower(Trim(tag)) in DisallowedTypes
    ensures !Keep(e.(typeTags := e.typeTags + [tag]), cal, now)
  {
    OneDisallowedTagExcludes(e.(typeTags := e.typeTags + [tag]), cal, now, |e.typeTags|);
  }

  /** A row whose category property has an option that is disallowed once trimmed and
      lower-cased never reaches the feed, whatever its other options are. */
  lemma DisallowedOptionExcludesRow(row: Row, g: Guesses, options: seq<SelectOption>, k: nat,
                                    cal: Calendar, now: int)
    requires NormalizeRow(row, g).Some?
    requires TypeProp(row) == Some(MultiSelect(Some(options)))
    requires k < |options| && ToLower(TrimmedName(options[k])) in DisallowedTypes
    ensures !Keep(NormalizeRow(row, g).value, cal, now)
  {
    var e := NormalizeRow(row, g).value;
    assert e.typeTags == TypeTags(Some(MultiSelect(Some(options))));
    DisallowedOptionExcludes(e, options, k, cal, now);
  }

  lemma EmptyIsNotDisallowed()
    ensures "" !in DisallowedTypes
  {
  }

  /** The same at the level of the event: tags taken from such options exclude it. */
  lemma DisallowedOptionExcludes(e: Event, options: seq<SelectOption>, k: nat, cal: Calendar, now: int)
    requires e.typeTags == TypeTags(Some(MultiSelect(Some(options))))
    requires k < |options| && ToLower(TrimmedName(options[k])) in DisallowedTypes
    ensures !Keep(e, cal, now)
  {
    var t := TrimmedName(options[k]);
    assert t != "" by {
      if t == "" { assert ToLower(t) == ""; EmptyIsNotDisallowed(); }
    }
    assert t in e.typeTags;
    var i :| 0 <= i < |e.typeTags| && e.typeTags[i] == t;
    assert Unpadded(t);
    TrimOfUnpadded(t);
    OneDisallowedTagExcludes(e, cal, now, i);
  }

  /** A row tagged "Workshop" and "Tour" is excluded: the "Tour" option decides, although
      "Workshop" alone is allowed (WorkshopIsAllowed). */
  lemma WorkshopAndTourExcluded(row: Row, g: Guesses, cal: Calendar, now: int)
    requires NormalizeRow(row, g).Some?
    requires TypeProp(row) == Some(MultiSelect(Some([SelectOption(Some("Workshop")), SelectOption(Some("Tour"))])))
    ensures !Keep(NormalizeRow(row, g).value, cal, now)
  {
    var options := [SelectOption(Some("Workshop")), SelectOption(Some("Tour"))];
    TourIsDisallowed(options[1].name.value);
    DisallowedOptionExcludesRow(row, g, options, 1, cal, now);
  }

  lemma TourIsDisallowed(t: string)
    requires t == "Tour"
    ensures ToLower(Trim(t)) in DisallowedTypes
  {
    TrimTour(t);
    LowerTour(t);
    TourInSet(ToLower(t));
  }

  lemma TrimTour(t: string)
    requires t == "Tour"
    ensures Trim(t) == t
  {
    TrimOfUnpadded(t);
  }

  lemma LowerTour(t: string)
    requires t == "Tour"
    ensures ToLower(t) == "tour"
  {
    var lower := ToLower(t);
    assert |lower| == 4 && lower[0] == 't' && lower[1] == 'o' && lower[2] == 'u' && lower[3] == 'r';
  }

  lemma TourInSet(t: string)
    requires t == "tour"
    ensures t in DisallowedTypes
  {
  }

  /** A name beginning with a capital W, "Workshop" say, names no disallowed category. */
  lemma WorkshopIsAllowed(t: string)
    requires t != [] && t[0] == 'W' && Unpadded(t)
    ensures ToLower(Trim(t)) !in DisallowedTypes
  {
    TrimOfUnpadded(t);
    LowerInitialAllowed(t);
  }

  lemma LowerInitialAllowed(t: string)
    requires t != [] && t[0] == 'W'
    ensures ToLower(t) !in DisallowedTypes
  {
    var lower := ToLower(t);
    assert lower[0] == LowerChar('W') == 'w';
    AllowedByInitial(lower);
  }

  /** No disallowed category starts with a letter other than e, i or t. */
  lemma AllowedByInitial(t: string)
    requires t != [] && t[0] != 'e' && t[0] != 'i' && t[0] != 't'
    ensures t !in DisallowedTypes
  {
  }

  /** A JavaScript Date object: its time value, None when it is NaN. */
  class JsDate {
    var time: Option<int>

    /** The time value of a date text; None when it does not parse. */
    constructor Parse(isoDate: string, cal: Calendar)
      ensures time == cal.parse(isoDate)
    {
      time := cal.parse(isoDate);
    }

    /** The date at the clock's current time value. */
    constructor At(now: int)
      ensures time == Some(now)
    {
      time := Some(now);
    }

    /** A new date with another date's time value. */
    constructor Copy(other: JsDate)
      ensures time == other.time
    {
      time := other.time;
    }

    /** Moves the date to the start of its local day; an invalid date stays invalid. */
    method SetMidnight(cal: Calendar)
      modifies this
      ensures time == (if old(time).Some? then Some(cal.midnight(old(time).value)) else None)
    {
      if time.Some? {
        time := Some(cal.midnight(time.value));
      }
    }
  }

  /** isFutureOrToday as the source computes it, on Date objects. */
  method CheckFutureOrToday(isoDate: string, cal: Calendar, now: int) returns (b: bool)
    ensures b == IsFutureOrToday(isoDate, cal, now)
  {
    if isoDate == "" {
      return false;
    }
    var eventDate := new JsDate.Parse(isoDate, cal);
    if eventDate.time.None? {
      return false;
    }
    var today := new JsDate.At(now);
    today.SetMidnight(cal);
    var normalizedEvent := new JsDate.Copy(eventDate);
    normalizedEvent.SetMidnight(cal);
    return normalizedEvent.time.value >= today.time.value;
  }

  // ---------------------------------------------------------------------
  // Sorting by start and selecting

  predicate Timed(e: Event, cal: Calendar) {
    cal.parse(e.dateStart).Some?
  }

  predicate AllTimed(es: seq<Event>, cal: Calendar) {
    forall e :: e in es ==> Timed(e, cal)
  }

  /** The time value of an event's start date. */
  function Start(e: Event, cal: Calendar): int
    requires Timed(e, cal)
  {
    cal.parse(e.dateStart).value
  }

  predicate SortedByStart(es: seq<Event>, cal: Calendar)
    requires AllTimed(es, cal)
  {
    forall i, j :: 0 <= i < j < |es| ==> Start(es[i], cal) <= Start(es[j], cal)
  }

  /** Every event the filter keeps has a start that parses. */
  lemma FilteredAreTimed(es: seq<Event>, cal: Calendar, now: int)
    ensures AllTimed(FilterEvents(es, cal, now), cal)
  {
    var r := FilterEvents(es, cal, now);
    forall i | 0 <= i < |r| ensures Timed(r[i], cal) {
      assert Keep(r[i], cal, now);
    }
  }

  /** Puts `x` after the last element of `s` that does not start later than it,
      so that events with equal starts keep their order. */
  function Insert(s: seq<Event>, x: Event, cal: Calendar): (r: seq<Event>)
    requires AllTimed(s, cal) && Timed(x, cal)
    ensures |r| == |s| + 1 && AllTimed(r, cal)
  {
    if s == [] || Start(s[|s| - 1], cal) <= Start(x, cal) then s + [x]
    else Insert(s[..|s| - 1], x, cal) + [s[|s| - 1]]
  }

  /** Insert adds exactly `x`. */
  lemma {:induction false} InsertPermutes(s: seq<Event>, x: Event, cal: Calendar)
    requires AllTimed(s, cal) && Timed(x, cal)
    ensures multiset(Insert(s, x, cal)) == multiset(s) + multiset{x}
    decreases |s|
  {
    if s != [] && Start(s[|s| - 1], cal) > Start(x, cal) {
      assert s == s[..|s| - 1] + [s[|s| - 1]];
      InsertPermutes(s[..|s| - 1], x, cal);
    }
  }

  /** Where the events after position `j` all start later than `x` and the one before it
      does not, Insert places `x` at position `j`. */
  lemma {:induction false} InsertAt(s: seq<Event>, x: Event, cal: Calendar, j: nat)
    requires AllTimed(s, cal) && Timed(x, cal) && j <= |s|
    requires forall k :: j <= k < |s| ==> Start(s[k], cal) > Start(x, cal)
    requires j == 0 || Start(s[j - 1], cal) <= Start(x, cal)
    ensures Insert(s, x, cal) == s[..j] + [x] + s[j..]
    decreases |s|
  {
    if s == [] || Start(s[|s| - 1], cal) <= Start(x, cal) {
      assert s[..j] == s && s[j..] == [];
    } else {
      var p := s[..|s| - 1];
      InsertAt(p, x, cal, j);
      assert p[..j] == s[..j];
      assert p[j..] + [s[|s| - 1]] == s[j..];
    }
  }

  /** The stable sort of `entries.sort((a, b) => new Date(a.dateStart) - new Date(b.dateStart))`. */
  function SortByStart(s: seq<Event>, cal: Calendar): (r: seq<Event>)
    requires AllTimed(s, cal)
    ensures |r| == |s| && AllTimed(r, cal)
  {
    if s == [] then [] else Insert(SortByStart(s[..|s| - 1], cal), s[|s| - 1], cal)
  }

  /** The sort neither adds nor loses events. */
  lemma {:induction false} SortPermutes(s: seq<Event>, cal: Calendar)
    requires AllTimed(s, cal)
    ensures multiset(SortByStart(s, cal)) == multiset(s)
    decreases |s|
  {
    if s != [] {
      assert s == s[..|s| - 1] + [s[|s| - 1]];
      SortPermutes(s[..|s| - 1], cal);
      InsertPermutes(SortByStart(s[..|s| - 1], cal), s[|s| - 1], cal);
    }
  }

  /** Sorting one more event inserts it into the sorted prefix. */
  lemma SortByStartSnoc(s: seq<Event>, x: Event, cal: Calendar)
    requires AllTimed(s, cal) && Timed(x, cal)
    ensures AllTimed(s + [x], cal)
    ensures SortByStart(s + [x], cal) == Insert(SortByStart(s, cal), x, cal)
  {
    assert (s + [x])[..|s|] == s;
  }

  lemma {:induction false} InsertSorted(s: seq<Event>, x: Event, cal: Calendar)
    requires AllTimed(s, cal) && Timed(x, cal) && SortedByStart(s, cal)
    ensures AllTimed(Insert(s, x, cal), cal) && SortedByStart(Insert(s, x, cal), cal)
    decreases |s|
  {
    if s == [] || Start(s[|s| - 1], cal) <= Start(x, cal) {
    } else {
      var p, last := s[..|s| - 1], s[|s| - 1];
      InsertSorted(p, x, cal);
      var q := Insert(p, x, cal);
      InsertPermutes(p, x, cal);
      forall i | 0 <= i < |q| ensures Start(q[i], cal) <= Start(last, cal) {
        assert q[i] in multiset(p) + multiset{x};
        if q[i] != x {
          assert q[i] in p;
        }
      }
    }
  }

  /** The sort yields the events in non-decreasing start order. */
  lemma {:induction false} SortByStartSorted(s: seq<Event>, cal: Calendar)
    requires AllTimed(s, cal)
    ensures AllTimed(SortByStart(s, cal), cal) && SortedByStart(SortByStart(s, cal), cal)
    decreases |s|
  {
    if s != [] {
      var p := s[..|s| - 1];
      SortByStartSorted(p, cal);
      InsertSorted(SortByStart(p, cal), s[|s| - 1], cal);
    }
  }

  /** prioritizeEvents, as a function: the first MaxEvents events in start order. */
  function Prioritize(es: seq<Event>, cal: Calendar): (r: seq<Event>)
    requires AllTimed(es, cal)
    ensures |r| == Min(|es|, MaxEvents)
  {
    SortByStart(es, cal)[..Min(|es|, MaxEvents)]
  }

  /** The input's events left out of a selection `r` all start no earlier than its last event,
      and something is left out only when the selection is full. */
  predicate Earliest(r: seq<Event>, es: seq<Event>, cal: Calendar)
    requires AllTimed(es, cal) && AllTimed(r, cal)
  {
    forall e :: e in es && multiset(r)[e] < multiset(es)[e] ==>
      |r| == MaxEvents && Start(r[|r| - 1], cal) <= Start(e, cal)
  }

  /** At most six events, as many as the input allows, in start order, all taken from the
      input, and the earliest of them. */
  lemma PrioritizeProperties(es: seq<Event>, cal: Calendar)
    requires AllTimed(es, cal)
    ensures var r := Prioritize(es, cal);
            && |r| == Min(|es|, MaxEvents)
            && AllTimed(r, cal) && SortedByStart(r, cal)
            && multiset(r) <= multiset(es)
            && Earliest(r, es, cal)
  {
    var s := SortByStart(es, cal);
    SortByStartSorted(es, cal);
    SortPermutes(es, cal);
    var r := Prioritize(es, cal);
    assert s == r + s[|r|..];
    assert multiset(s) == multiset(r) + multiset(s[|r|..]);
    SortedPrefixEarliest(s, es, |r|, cal);
  }

  /** The first `k` events of a sorted permutation of `es` are the earliest of `es`. */
  lemma SortedPrefixEarliest(s: seq<Event>, es: seq<Event>, k: nat, cal: Calendar)
    requires AllTimed(s, cal) && AllTimed(es, cal) && SortedByStart(s, cal)
    requires k == Min(|s|, MaxEvents) && multiset(s) == multiset(es)
    ensures AllTimed(s[..k], cal) && Earliest(s[..k], es, cal)
  {
    var r := s[..k];
    assert s == r + s[k..];
    assert multiset(s) == multiset(r) + multiset(s[k..]);
    forall e | e in es && multiset(r)[e] < multiset(es)[e]
      ensures |r| == MaxEvents && Start(r[|r| - 1], cal) <= Start(e, cal)
    {
      assert e in multiset(s[k..]);
      var j :| 0 <= j < |s[k..]| && s[k..][j] == e;
      assert s[k + j] == e;
      assert r[k - 1] == s[k - 1];
    }
  }

  /** One pass of the insertion sort: moves `a[i]` down into the sorted prefix `a[..i]`. */
  method InsertLast(a: array<Event>, i: nat, cal: Calendar)
    requires i < a.Length && AllTimed(a[..i], cal) && Timed(a[i], cal)
    modifies a
    ensures a[..i + 1] == Insert(old(a[..i]), old(a[i]), cal)
    ensures a[i + 1..] == old(a[i + 1..])
  {
    ghost var sorted := a[..i];
    var x := a[i];
    var j := i;
    while j > 0 && Start(a[j - 1], cal) > Start(x, cal)
      invariant 0 <= j <= i
      invariant forall k :: 0 <= k < j ==> a[k] == sorted[k]
      invariant forall k :: j < k <= i ==> a[k] == sorted[k - 1]
      invariant forall k :: i < k < a.Length ==> a[k] == old(a[k])
      invariant forall k :: j <= k < i ==> Start(sorted[k], cal) > Start(x, cal)
    {
      a[j] := a[j - 1];
      j := j - 1;
    }
    a[j] := x;
    InsertAt(sorted, x, cal, j);
    assert a[..i + 1] == sorted[..j] + [x] + sorted[j..];
  }

  /** prioritizeEvents as the source runs it: the filtered array is sorted in place
      (an insertion sort, which is stable like Array.prototype.sort), then sliced. */
  method PrioritizeEvents(a: array<Event>, cal: Calendar) returns (top: seq<Event>)
    requires AllTimed(a[..], cal)
    modifies a
    ensures a[..] == SortByStart(old(a[..]), cal)
    ensures top == a[..Min(a.Length, MaxEvents)]
  {
    ghost var input := a[..];
    var i := 0;
    while i < a.Length
      invariant 0 <= i <= a.Length
      invariant AllTimed(input[..i], cal)
      invariant a[..i] == SortByStart(input[..i], cal)
      invariant a[i..] == input[i..]
    {
      ghost var sorted := a[..i];
      var x := a[i];
      assert x == input[i] && x in input;
      SortByStartSnoc(input[..i], x, cal);
      assert input[..i + 1] == input[..i] + [x];
      InsertLast(a, i, cal);
      i := i + 1;
    }
    assert input[..a.Length] == input;
    top := a[..Min(a.Length, MaxEvents)];
  }

  // ---------------------------------------------------------------------
  // The pipeline

  /** rows -> normalised -> filtered -> sorted and truncated */
  function Pipeline(rows: seq<Row>, g: Guesses, cal: Calendar, now: int): (r: seq<Event>)
    ensures |r| == Min(|FilterEvents(Normalize(rows, g), cal, now)|, MaxEvents)
  {
    var kept := FilterEvents(Normalize(rows, g), cal, now);
    FilteredAreTimed(Normalize(rows, g), cal, now);
    Prioritize(kept, cal)
  }

  /** The published feed: as many of the events that pass the filter as fit in six, well formed,
      in start order, each one that passed the filter and came from a row, and the earliest
      of those that passed. */
  lemma PipelineProperties(rows: seq<Row>, g: Guesses, cal: Calendar, now: int)
    ensures AllTimed(FilterEvents(Normalize(rows, g), cal, now), cal)
    ensures var r := Pipeline(rows, g, cal, now);
            var kept := FilterEvents(Normalize(rows, g), cal, now);
            && |r| == Min(|kept|, MaxEvents) && |r| <= MaxEvents
            && AllTimed(r, cal) && SortedByStart(r, cal)
            && Earliest(r, kept, cal)
            && (forall i :: 0 <= i < |r| ==> WellFormed(r[i]) && Keep(r[i], cal, now))
            && multiset(r) <= multiset(Normalize(rows, g))
  {
    var es := Normalize(rows, g);
    var kept := FilterEvents(es, cal, now);
    FilteredAreTimed(es, cal, now);
    PrioritizeProperties(kept, cal);
    var r := Pipeline(rows, g, cal, now);
    assert r == Prioritize(kept, cal);
    SelectedFromKept(r, kept, es, cal, now);
  }

  /** Events chosen from the filtered events of a normalised list are well formed and kept. */
  lemma SelectedFromKept(r: seq<Event>, kept: seq<Event>, es: seq<Event>, cal: Calendar, now: int)
    requires multiset(r) <= multiset(kept) && multiset(kept) <= multiset(es)
    requires forall i :: 0 <= i < |kept| ==> Keep(kept[i], cal, now)
    requires forall i :: 0 <= i < |es| ==> WellFormed(es[i])
    ensures forall i :: 0 <= i < |r| ==> WellFormed(r[i]) && Keep(r[i], cal, now)
    ensures multiset(r) <= multiset(es)
  {
    forall i | 0 <= i < |r| ensures WellFormed(r[i]) && Keep(r[i], cal, now) {
      assert r[i] in multiset(kept);
      var k :| 0 <= k < |kept| && kept[k] == r[i];
      assert kept[k] in multiset(es);
      var m :| 0 <= m < |es| && es[m] == kept[k];
    }
  }
}
