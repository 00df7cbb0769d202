/**
 * The helpers of the display page (src/main.js) that decide what the screen
 * shows: the base path, the language flag, the number of grid rows, the
 * shaping of the fetched feed, and the time and price labels of a card.
 *
 * Locale formatting is abstract: `clock` stands for the de-DE hour:minute
 * formatter applied to a time value, and `currency` for the de-DE euro
 * formatter applied to the number a sanitised price text denotes.
 */
module Display {
  import opened Js
  import opened Events

  const MaxEvents := 6

  // ---------------------------------------------------------------------
  // normalizeBase

  /** normalizeBase: the deploy base path, ending in exactly the slashes it had plus one when missing. */
  function NormalizeBase(base: Option<string>): (r: string)
    ensures EndsWith(r, "/")
    ensures !Truthy(base) ==> r == "/"
    ensures Truthy(base) && EndsWith(base.value, "/") ==> r == base.value
    ensures Truthy(base) && !EndsWith(base.value, "/") ==> r == base.value + "/"
  {
    if !Truthy(base) then "/"
    else if base.value == "/" then "/"
    else if EndsWith(base.value, "/") then base.value
    else base.value + "/"
  }

  lemma NormalizeBaseIdempotent(base: Option<string>)
    ensures NormalizeBase(Some(NormalizeBase(base))) == NormalizeBase(base)
  {
  }

  // ---------------------------------------------------------------------
  // getLanguageFlag

  const GermanFlag := "\U{1F1E9}\U{1F1EA}"
  const BritishFlag := "\U{1F1EC}\U{1F1E7}"
  const Globe := "\U{1F310}"

  /** getLanguageFlag; an absent language is the default ''. */
  function LanguageFlag(language: Option<string>): (r: string)
    ensures r == GermanFlag || r == BritishFlag || r == Globe
    ensures language.None? ==> r == Globe
  {
    var normalized := ToLower(OrEmpty(language));
    if Includes(normalized, "deutsch") || Includes(normalized, "german") then GermanFlag
    else if Includes(normalized, "engl") || Includes(normalized, "english") then BritishFlag
    else Globe
  }

  /** German wins over English; "english" adds nothing to "engl"; everything else is the globe. */
  lemma LanguageFlagCases(language: Option<string>)
    ensures var l := ToLower(OrEmpty(language));
            && (LanguageFlag(language) == GermanFlag <==> Includes(l, "deutsch") || Includes(l, "german"))
            && (LanguageFlag(language) == BritishFlag <==>
                  !Includes(l, "deutsch") && !Includes(l, "german") && Includes(l, "engl"))
            && (LanguageFlag(language) == Globe <==>
                  !Includes(l, "deutsch") && !Includes(l, "german") && !Includes(l, "engl"))
  {
    var l := ToLower(OrEmpty(language));
    if Includes(l, "english") {
      IncludesPrefixOf(l, "english", "engl");
    }
    assert GermanFlag != BritishFlag && GermanFlag != Globe && BritishFlag != Globe by {
      assert GermanFlag[1] != BritishFlag[1];
      assert |Globe| == 1 && |GermanFlag| == 2;
    }
  }

  /** The match ignores case: a language written in capitals gets the same flag. */
  lemma LanguageFlagIgnoresCase(language: string)
    ensures LanguageFlag(Some(ToLower(language))) == LanguageFlag(Some(language))
  {
    ToLowerIdempotent(language);
  }

  // ---------------------------------------------------------------------
  // The --events-rows variable

  /** getColumnCount: two columns on a wide landscape window, otherwise one. */
  function ColumnCount(hasWindow: bool, landscapeWide: bool): (r: int)
    ensures r == 1 || r == 2
  {
    if !hasWindow then 1 else if landscapeWide then 2 else 1
  }

  /** `Math.ceil(a / b)` for a positive divisor. */
  function CeilDiv(a: int, b: int): int
    requires b > 0
  {
    (a + b - 1) / b
  }

  /** The number of grid rows: enough rows of `columns` cells for the events (an absent or
      zero count taken as one event), and never fewer than one. */
  function RowCount(n: nat, columns: int): (r: int)
    requires columns >= 1
    ensures r >= 1 && r * columns >= n
  {
    var m := if n == 0 then 1 else n;
    var c := CeilDiv(m, columns);
    CeilDivCovers(m, columns);
    if c < 1 then 1 else c
  }

  /** Rounding up leaves room for all `a`, and not a whole `b` more. */
  lemma CeilDivCovers(a: nat, b: int)
    requires b > 0
    ensures CeilDiv(a, b) * b >= a && (CeilDiv(a, b) - 1) * b < a
  {
    var q := (a + b - 1) / b;
    var rem := (a + b - 1) % b;
    assert a + b - 1 == q * b + rem;
  }

  /** At least one row, one for no events, enough rows for every event, and no row to spare. */
  lemma RowCountBounds(n: nat, columns: int)
    requires columns >= 1
    ensures var rows := RowCount(n, columns);
            && rows >= 1
            && (n == 0 ==> rows == 1)
            && rows * columns >= n
            && (rows - 1) * columns < (if n == 0 then 1 else n)
  {
    CeilDivCovers(if n == 0 then 1 else n, columns);
  }

  /** The module state the row computation reads and writes. */
  class Screen {
    /** Whether `#app` exists. */
    const hasRoot: bool
    /** The events the page currently shows. */
    var currentEvents: seq<Json>
    /** The `--events-rows` style property of the root, None until set. */
    var eventsRows: Option<int>

    constructor(hasRoot: bool)
      ensures this.hasRoot == hasRoot && currentEvents == [] && eventsRows == None
    {
      this.hasRoot := hasRoot;
      currentEvents := [];
      eventsRows := None;
    }

    /** updateEventRowsVariable */
    method UpdateEventRowsVariable(hasWindow: bool, landscapeWide: bool)
      modifies this
      ensures currentEvents == old(currentEvents)
      ensures !hasRoot ==> eventsRows == old(eventsRows)
      ensures hasRoot ==> eventsRows == Some(RowCount(|currentEvents|, ColumnCount(hasWindow, landscapeWide)))
    {
      if !hasRoot {
        return;
      }
      var columns := ColumnCount(hasWindow, landscapeWide);
      var rows := RowCount(|currentEvents|, columns);
      eventsRows := Some(rows);
    }

    /** The state renderEvents changes: the events it keeps (those of an array, else none)
        and the rows variable; the cards themselves are DOM and not modelled. */
    method RenderEvents(events: Json, hasWindow: bool, landscapeWide: bool)
      modifies this
      ensures currentEvents == (if events.JArray? then events.items else [])
      ensures !hasRoot ==> eventsRows == old(eventsRows)
      ensures hasRoot ==> eventsRows == Some(RowCount(|currentEvents|, ColumnCount(hasWindow, landscapeWide)))
    {
      currentEvents := if events.JArray? then events.items else [];
      UpdateEventRowsVariable(hasWindow, landscapeWide);
    }
  }

  // ---------------------------------------------------------------------
  // loadEvents

  /** A JSON value as `response.json()` yields it. */
  datatype Json =
    | JNull
    | JBool(b: bool)
    | JNumber(n: int)
    | JString(s: string)
    | JArray(items: seq<Json>)
    | JObject(members: seq<(string, Json)>)

  /** What fetching events.json gives: a rejected fetch, or a status with its body
      (None when the body is not JSON). */
  datatype FeedResponse = Rejected | Reply(status: int, body: Option<Json>)

  /** loadEvents, with every thrown error caught as an empty list. */
  function LoadEvents(response: FeedResponse): (r: seq<Json>)
    ensures |r| <= MaxEvents
    ensures response.Reply? && 200 <= response.status <= 299 && response.body.Some? && response.body.value.JArray? ==>
              var items := response.body.value.items;
              |r| == Min(|items|, MaxEvents) && r == items[..|r|]
    ensures !(response.Reply? && 200 <= response.status <= 299 && response.body.Some? && response.body.value.JArray?) ==>
              r == []
  {
    match response
    case Rejected => []
    case Reply(status, body) =>
      if !(200 <= status <= 299) then []
      else if body.None? then []
      else if !body.value.JArray? then []
      else body.value.items[..Min(|body.value.items|, MaxEvents)]
  }

  /** A published feed of at most six events is shown whole, in its order. */
  lemma LoadEventsShowsSmallFeed(items: seq<Json>, status: int)
    requires 200 <= status <= 299 && |items| <= MaxEvents
    ensures LoadEvents(Reply(status, Some(JArray(items)))) == items
  {
  }

  // ---------------------------------------------------------------------
  // formatTimeWindow

  /** formatTimeWindow: a non-blank time label wins; then the start (and end) clock times. */
  function FormatTimeWindow(time: Option<string>, dateStart: Option<string>, dateEnd: Option<string>,
                            cal: Calendar, clock: int -> string): (r: string)
    ensures time.Some? && Trim(time.value) != "" ==> r == Trim(time.value) && Unpadded(r)
    ensures !(time.Some? && Trim(time.value) != "") && (!Truthy(dateStart) || cal.parse(dateStart.value).None?) ==>
              r == ""
    ensures !(time.Some? && Trim(time.value) != "") && Truthy(dateStart) && cal.parse(dateStart.value).Some? ==>
              StartsWith(r, clock(cal.parse(dateStart.value).value)) && EndsWith(r, " Uhr")
  {
    if time.Some? && Trim(time.value) != "" then Trim(time.value)
    else if !Truthy(dateStart) then ""
    else match cal.parse(dateStart.value)
      case None => ""
      case Some(start) =>
        var startLabel := clock(start);
        if !Truthy(dateEnd) then startLabel + " Uhr"
        else
          var endLabel := match cal.parse(dateEnd.value) case None => None case Some(end) => Some(clock(end));
          if Truthy(endLabel) then startLabel + " - " + endLabel.value + " Uhr" else startLabel + " Uhr"
  }

  /** With a start time and an end that the formatter labels, the label is the range. */
  lemma FormatTimeWindowRange(dateStart: string, dateEnd: string, cal: Calendar, clock: int -> string)
    requires dateStart != "" && cal.parse(dateStart).Some? && dateEnd != "" && cal.parse(dateEnd).Some?
    requires clock(cal.parse(dateEnd).value) != ""
    ensures FormatTimeWindow(None, Some(dateStart), Some(dateEnd), cal, clock)
            == clock(cal.parse(dateStart).value) + " - " + clock(cal.parse(dateEnd).value) + " Uhr"
  {
  }

  // ---------------------------------------------------------------------
  // formatPrice

  /** The characters `[0-9,.-]` that the sanitiser keeps. */
  predicate IsNumericChar(c: char) {
    IsDigit(c) || c == ',' || c == '.' || c == '-'
  }

  /** `.replace(/[^0-9,.-]/g, '')`: the numeric characters, each as often as in `s`, and nothing else. */
  function KeepNumeric(s: string): (r: string)
    ensures forall i :: 0 <= i < |r| ==> IsNumericChar(r[i])
    ensures forall c :: IsNumericChar(c) ==> multiset(r)[c] == multiset(s)[c]
    ensures forall c :: !IsNumericChar(c) ==> c !in r
  {
    if s == [] then []
    else
      assert s == [s[0]] + s[1..];
      (if IsNumericChar(s[0]) then [s[0]] else []) + KeepNumeric(s[1..])
  }

  /** The sanitiser works character by character and keeps the order of what it keeps. */
  lemma {:induction false} KeepNumericAppend(a: string, b: string)
    ensures KeepNumeric(a + b) == KeepNumeric(a) + KeepNumeric(b)
    decreases |a|
  {
    if a == [] {
      assert a + b == b;
    } else {
      assert (a + b)[0] == a[0];
      assert (a + b)[1..] == a[1..] + b;
      KeepNumericAppend(a[1..], b);
    }
  }

  /** Text made only of numeric characters passes the sanitiser unchanged. */
  lemma {:induction false} KeepNumericOfNumeric(s: string)
    requires forall i :: 0 <= i < |s| ==> IsNumericChar(s[i])
    ensures KeepNumeric(s) == s
  {
    if s != [] {
      KeepNumericOfNumeric(s[1..]);
    }
  }

  /** `s[k]` is the first comma of `s`. */
  predicate FirstComma(s: string, k: int) {
    0 <= k < |s| && s[k] == ',' && forall j :: 0 <= j < k ==> s[j] != ','
  }

  /** `.replace(',', '.')`: the first comma becomes a point, every other character stays. */
  function ReplaceFirstComma(s: string): (r: string)
    ensures |r| == |s|
    ensures forall k :: 0 <= k < |s| ==> r[k] == (if FirstComma(s, k) then '.' else s[k])
  {
    if s == [] then []
    else if s[0] == ',' then "." + s[1..]
    else
      var rest := ReplaceFirstComma(s[1..]);
      assert forall k :: 1 <= k < |s| ==> (FirstComma(s, k) <==> FirstComma(s[1..], k - 1));
      [s[0]] + rest
  }

  /** Without a comma, the replacement changes nothing. */
  lemma ReplaceWithoutComma(s: string)
    requires forall k :: 0 <= k < |s| ==> s[k] != ','
    ensures ReplaceFirstComma(s) == s
  {
  }

  /** Neither the point nor the comma, a character is kept as often by the replacement. */
  lemma {:induction false} ReplaceKeepsOthers(s: string, c: char)
    requires c != ',' && c != '.'
    ensures multiset(ReplaceFirstComma(s))[c] == multiset(s)[c]
    decreases |s|
  {
    if s != [] {
      assert s == [s[0]] + s[1..];
      if s[0] == ',' {
        assert ReplaceFirstComma(s) == ['.'] + s[1..];
      } else {
        ReplaceKeepsOthers(s[1..], c);
        assert ReplaceFirstComma(s) == [s[0]] + ReplaceFirstComma(s[1..]);
      }
    }
  }

  /** The price text handed to Number(): its numeric characters, in order, with the first
      comma read as a decimal point; every digit and minus sign of the price survives. */
  function Sanitize(price: string): (r: string)
    ensures |r| == |KeepNumeric(price)|
    ensures forall k :: 0 <= k < |r| ==>
              r[k] == (if FirstComma(KeepNumeric(price), k) then '.' else KeepNumeric(price)[k])
    ensures forall i :: 0 <= i < |r| ==> IsNumericChar(r[i])
    ensures forall c :: IsDigit(c) || c == '-' ==> multiset(r)[c] == multiset(price)[c]
    ensures ',' !in price ==> r == KeepNumeric(price)
  {
    SanitizedCharacters(price);
    ReplaceFirstComma(KeepNumeric(price))
  }

  lemma SanitizedCharacters(price: string)
    ensures forall c :: IsDigit(c) || c == '-' ==>
              multiset(ReplaceFirstComma(KeepNumeric(price)))[c] == multiset(price)[c]
    ensures ',' !in price ==> ReplaceFirstComma(KeepNumeric(price)) == KeepNumeric(price)
  {
    var kept := KeepNumeric(price);
    forall c | IsDigit(c) || c == '-' ensures multiset(ReplaceFirstComma(kept))[c] == multiset(price)[c] {
      ReplaceKeepsOthers(kept, c);
    }
    if ',' !in price {
      assert ',' !in kept;
      ReplaceWithoutComma(kept);
    }
  }

  /** A decimal literal without sign over digits and points: at least one digit, at most one point. */
  predicate UnsignedDecimal(t: string) {
    (forall i :: 0 <= i < |t| ==> IsDigit(t[i]) || t[i] == '.')
    && (exists i :: 0 <= i < |t| && IsDigit(t[i]))
    && (forall i, j :: 0 <= i < j < |t| && t[i] == '.' ==> t[j] != '.')
  }

  /** Number(s) is not NaN, for a text over `[0-9.,-]`: the empty text (which is 0), or an
      optional minus followed by an unsigned decimal literal. */
  predicate NumberParses(s: string) {
    s == [] || (if s[0] == '-' then UnsignedDecimal(s[1..]) else UnsignedDecimal(s))
  }

  /** formatPrice; an absent price is the default ''. */
  function FormatPrice(price: Option<string>, currency: string -> string): (r: string)
    ensures !Truthy(price) ==> r == "Kostenlos"
    ensures Truthy(price) && !NumberParses(Sanitize(price.value)) ==> r == price.value
    ensures Truthy(price) && NumberParses(Sanitize(price.value)) ==> r == currency(Sanitize(price.value))
  {
    if !Truthy(price) then "Kostenlos"
    else
      var numeric := Sanitize(price.value);
      if NumberParses(numeric) then currency(numeric) else price.value
  }

  /** A price of plain digits is formatted as that amount. */
  lemma PriceOfDigits(price: string, currency: string -> string)
    requires price != [] && AllDigits(price)
    ensures FormatPrice(Some(price), currency) == currency(price)
  {
    KeepNumericOfNumeric(price);
    ReplaceWithoutComma(price);
    assert Sanitize(price) == price;
    assert IsDigit(price[0]);
    assert NumberParses(price);
  }

  /** A decimal comma is read as a decimal point: digits, a comma and digits are the
      amount with a point in its place. */
  lemma PriceWithDecimalComma(whole: string, cents: string, currency: string -> string)
    requires whole != [] && AllDigits(whole) && AllDigits(cents)
    ensures FormatPrice(Some(whole + "," + cents), currency) == currency(whole + "." + cents)
  {
    var p := whole + "," + cents;
    var t := whole + "." + cents;
    assert forall i :: 0 <= i < |p| ==> IsNumericChar(p[i]);
    KeepNumericOfNumeric(p);
    ReplaceAtFirstComma(whole, cents);
    assert Sanitize(p) == t;
    PointedDecimal(whole, cents);
  }

  /** Digits, a point and digits make a number. */
  lemma PointedDecimal(whole: string, cents: string)
    requires whole != [] && AllDigits(whole) && AllDigits(cents)
    ensures NumberParses(whole + "." + cents)
  {
    var t := whole + "." + cents;
    assert IsDigit(t[0]);
    forall i, j | 0 <= i < j < |t| && t[i] == '.' ensures t[j] != '.' {
      assert i == |whole|;
    }
  }

  lemma ReplaceAtFirstComma(whole: string, cents: string)
    requires AllDigits(whole) && AllDigits(cents)
    ensures ReplaceFirstComma(whole + "," + cents) == whole + "." + cents
  {
    var p := whole + "," + cents;
    var t := whole + "." + cents;
    var r := ReplaceFirstComma(p);
    forall k | 0 <= k < |p| ensures r[k] == t[k] {
      if k < |whole| {
        assert p[k] == whole[k] && IsDigit(whole[k]);
        assert !FirstComma(p, k);
      } else if k == |whole| {
        forall j | 0 <= j < k ensures p[j] != ',' {
          assert p[j] == whole[j] && IsDigit(whole[j]);
        }
        assert FirstComma(p, k);
      } else {
        assert p[|whole|] == ',';
        assert !FirstComma(p, k);
        assert p[k] == cents[k - |whole| - 1] == t[k];
      }
    }
    assert r == t;
  }

  /** A price text with no numeric character at all sanitises to '', which Number()
      reads as 0: it is formatted as the amount zero, not shown as written. */
  lemma PriceWithoutNumerals(price: string, currency: string -> string)
    requires price != [] && forall i :: 0 <= i < |price| ==> !IsNumericChar(price[i])
    ensures FormatPrice(Some(price), currency) == currency("")
  {
  }

  /** Numeric text that is still not a number, such as one with two decimal points, is
      shown as written. */
  lemma PriceWithTwoPoints(price: string, i: int, j: int, currency: string -> string)
    requires forall k :: 0 <= k < |price| ==> IsNumericChar(price[k]) && price[k] != ','
    requires 0 < i < j < |price| && price[i] == '.' && price[j] == '.'
    ensures FormatPrice(Some(price), currency) == price
  {
    KeepNumericOfNumeric(price);
    ReplaceWithoutComma(price);
    if price[0] == '-' {
      assert price[1..][i - 1] == '.' && price[1..][j - 1] == '.';
    }
  }

  /** A lone minus is not a number and is shown as written. */
  lemma PriceLoneMinus(currency: string -> string)
    ensures FormatPrice(Some("-"), currency) == "-"
  {
    KeepNumericOfNumeric("-");
    ReplaceWithoutComma("-");
    assert "-"[1..] == [];
  }
}
