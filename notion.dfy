/**
 * Notion database properties as the event feed reads them: a closed set of
 * property kinds with their payloads, the case-insensitive property lookup
 * with its fallback by kind, and the conversion of a property to display
 * text or to a date range (scripts/fetch-events.js).
 */
module NotionProps {
  import opened Js

  /** A rich-text run as far as the feed reads it: its plain text, or None for a
      null run or one without plain text (`part?.plain_text ?? ''`). */
  type Run = Option<string>

  /** A select, multi-select or status option; its name may be missing. */
  datatype SelectOption = SelectOption(name: Option<string>)

  datatype DateRange = DateRange(start: Option<string>, end: Option<string>)

  /** The inner value of a formula property, by its result kind. */
  datatype FormulaResult =
    | StringResult(text: Option<string>)
    | NumberResult(number: Option<int>)
    | DateResult(range: Option<DateRange>)
    | OtherResult(kind: string)

  /** The `type` strings of the kinds the feed reads, and of status. */
  const KnownKinds: set<string> := {"title", "rich_text", "select", "multi_select", "number", "formula", "date", "status"}

  /** The `type` of a kind the feed does not read, such as "checkbox" or "people". */
  type OtherKind = k: string | k !in KnownKinds witness "checkbox"

  /** A property, by its `type`. A payload of None is a payload that is null or
      absent; `Other` stands for every kind the feed does not read. */
  datatype Property =
    | Title(runs: Option<seq<Run>>)
    | RichText(runs: Option<seq<Run>>)
    | Select(option: Option<SelectOption>)
    | MultiSelect(options: Option<seq<SelectOption>>)
    | Number(number: Option<int>)
    | Formula(result: Option<FormulaResult>)
    | Date(range: Option<DateRange>)
    | Status(option: Option<SelectOption>)
    | Other(kind: OtherKind)

  /** The property's `type` string. */
  function KindName(p: Property): string {
    match p
    case Title(_) => "title"
    case RichText(_) => "rich_text"
    case Select(_) => "select"
    case MultiSelect(_) => "multi_select"
    case Number(_) => "number"
    case Formula(_) => "formula"
    case Date(_) => "date"
    case Status(_) => "status"
    case Other(k) => k
  }

  /** A row's properties, in the order Object.entries lists them. */
  type Bag = seq<(string, Property)>

  // ---------------------------------------------------------------------
  // findProperty

  /** The first entry whose name equals `name` ignoring case (`entries.find`). */
  function IndexOfName(bag: Bag, name: string): (r: Option<nat>)
    ensures r.Some? ==> r.value < |bag| && ToLower(bag[r.value].0) == ToLower(name)
    ensures forall j :: 0 <= j < |bag| && (r.None? || j < r.value) ==> ToLower(bag[j].0) != ToLower(name)
  {
    if bag == [] then None
    else if ToLower(bag[0].0) == ToLower(name) then Some(0)
    else match IndexOfName(bag[1..], name)
      case None => None
      case Some(k) => Some(k + 1)
  }

  /** The first entry whose kind is in `allowed`. */
  function IndexOfKind(bag: Bag, allowed: seq<string>): (r: Option<nat>)
    ensures r.Some? ==> r.value < |bag| && KindName(bag[r.value].1) in allowed
    ensures forall j :: 0 <= j < |bag| && (r.None? || j < r.value) ==> KindName(bag[j].1) !in allowed
  {
    if bag == [] then None
    else if KindName(bag[0].1) in allowed then Some(0)
    else match IndexOfKind(bag[1..], allowed)
      case None => None
      case Some(k) => Some(k + 1)
  }

  /** The aliases tried in order, each against every entry. Something is found exactly
      when some alias names an entry. */
  function FindByNames(bag: Bag, names: seq<string>): (r: Option<Property>)
    ensures r.Some? <==> exists i :: 0 <= i < |names| && IndexOfName(bag, names[i]).Some?
  {
    if names == [] then None
    else match IndexOfName(bag, names[0])
      case Some(j) => Some(bag[j].1)
      case None =>
        var r := FindByNames(bag, names[1..]);
        assert (exists i :: 0 <= i < |names| && IndexOfName(bag, names[i]).Some?) <==>
               (exists i :: 0 <= i < |names| - 1 && IndexOfName(bag, names[1..][i]).Some?) by {
          forall i | 0 <= i < |names| - 1 ensures names[1..][i] == names[i + 1] { }
          if exists i :: 0 <= i < |names| && IndexOfName(bag, names[i]).Some? {
            var i :| 0 <= i < |names| && IndexOfName(bag, names[i]).Some?;
            assert i != 0 && names[1..][i - 1] == names[i];
          }
        }
        r
  }

  /** findProperty(props, names, allowedTypes): whatever it returns is one of the row's own
      properties, and one found without a name match has an allowed kind. */
  function FindProperty(bag: Bag, names: seq<string>, allowed: seq<string>): (r: Option<Property>)
    ensures r.Some? ==> exists j :: 0 <= j < |bag| && bag[j].1 == r.value
    ensures r.Some? && FindByNames(bag, names).None? ==> allowed != [] && KindName(r.value) in allowed
  {
    match FindByNames(bag, names)
    case Some(p) =>
      FoundByName(bag, names);
      Some(p)
    case None =>
      if allowed == [] then None
      else match IndexOfKind(bag, allowed)
        case Some(j) => Some(bag[j].1)
        case None => None
  }

  /** The first alias that names an entry wins, whatever the allowed kinds are. */
  lemma {:induction false} NameMatchWins(bag: Bag, names: seq<string>, allowed: seq<string>, k: nat)
    requires k < |names| && IndexOfName(bag, names[k]).Some?
    requires forall i :: 0 <= i < k ==> IndexOfName(bag, names[i]).None?
    ensures FindProperty(bag, names, allowed) == Some(bag[IndexOfName(bag, names[k]).value].1)
  {
    FirstMatchingAlias(bag, names, k);
  }

  lemma {:induction false} FirstMatchingAlias(bag: Bag, names: seq<string>, k: nat)
    requires k < |names| && IndexOfName(bag, names[k]).Some?
    requires forall i :: 0 <= i < k ==> IndexOfName(bag, names[i]).None?
    ensures FindByNames(bag, names) == Some(bag[IndexOfName(bag, names[k]).value].1)
    decreases k
  {
    if k > 0 {
      assert IndexOfName(bag, names[0]).None?;
      assert names[1..][k - 1] == names[k];
      forall i | 0 <= i < k - 1
        ensures IndexOfName(bag, names[1..][i]).None?
      {
        assert names[1..][i] == names[i + 1];
      }
      FirstMatchingAlias(bag, names[1..], k - 1);
    }
  }

  lemma {:induction false} NoAliasMatches(bag: Bag, names: seq<string>)
    requires forall i :: 0 <= i < |names| ==> IndexOfName(bag, names[i]).None?
    ensures FindByNames(bag, names) == None
    decreases |names|
  {
    if names != [] {
      assert IndexOfName(bag, names[0]).None?;
      forall i | 0 <= i < |names| - 1
        ensures IndexOfName(bag, names[1..][i]).None?
      {
        assert names[1..][i] == names[i + 1];
      }
      NoAliasMatches(bag, names[1..]);
    }
  }

  /** Without a name match, the result is the first entry of an allowed kind,
      and nothing at all when no kind is allowed. */
  lemma KindFallback(bag: Bag, names: seq<string>, allowed: seq<string>)
    requires forall i :: 0 <= i < |names| ==> IndexOfName(bag, names[i]).None?
    ensures allowed == [] ==> FindProperty(bag, names, allowed) == None
    ensures allowed != [] ==>
              FindProperty(bag, names, allowed) ==
              (match IndexOfKind(bag, allowed) case Some(j) => Some(bag[j].1) case None => None)
  {
    NoAliasMatches(bag, names);
  }

  lemma {:induction false} FoundByName(bag: Bag, names: seq<string>)
    requires FindByNames(bag, names).Some?
    ensures exists j :: 0 <= j < |bag| && bag[j].1 == FindByNames(bag, names).value
    decreases |names|
  {
    if IndexOfName(bag, names[0]).None? {
      FoundByName(bag, names[1..]);
    }
  }

  /** findProperty as the source writes it: a loop over the aliases, each
      scanning the entries and returning on the first match, then one scan by kind. */
  method FindPropertyScan(bag: Bag, names: seq<string>, allowed: seq<string>) returns (r: Option<Property>)
    ensures r == FindProperty(bag, names, allowed)
  {
    var k := 0;
    while k < |names|
      invariant 0 <= k <= |names|
      invariant FindByNames(bag, names) == FindByNames(bag, names[k..])
    {
      var lowerName := ToLower(names[k]);
      var j := 0;
      while j < |bag|
        invariant 0 <= j <= |bag|
        invariant forall i :: 0 <= i < j ==> ToLower(bag[i].0) != lowerName
      {
        if ToLower(bag[j].0) == lowerName {
          assert IndexOfName(bag, names[k]) == Some(j);
          return Some(bag[j].1);
        }
        j := j + 1;
      }
      assert IndexOfName(bag, names[k]).None?;
      assert names[k..][1..] == names[k + 1..];
      k := k + 1;
    }
    if |allowed| == 0 {
      return None;
    }
    var j := 0;
    while j < |bag|
      invariant 0 <= j <= |bag|
      invariant forall i :: 0 <= i < j ==> KindName(bag[i].1) !in allowed
    {
      if KindName(bag[j].1) in allowed {
        assert IndexOfKind(bag, allowed) == Some(j);
        return Some(bag[j].1);
      }
      j := j + 1;
    }
    return None;
  }

  // ---------------------------------------------------------------------
  // extractPlainText, extractDateRange

  function RunText(run: Run): string {
    if run.Some? then run.value else ""
  }

  function RunTexts(runs: seq<Run>): (r: seq<string>)
    ensures |r| == |runs| && forall i :: 0 <= i < |runs| ==> r[i] == RunText(runs[i])
  {
    if runs == [] then [] else [RunText(runs[0])] + RunTexts(runs[1..])
  }

  /** The runs' plain text one after the other, a missing run counting as ''. */
  function PlainConcat(runs: seq<Run>): string {
    if runs == [] then "" else RunText(runs[0]) + PlainConcat(runs[1..])
  }

  /** The concatenated runs of a list that may be absent (`parts = []`). */
  function RichPlain(runs: Option<seq<Run>>): string {
    if runs.Some? then PlainConcat(runs.value) else ""
  }

  /** `parts.map(...).join('')` is the plain concatenation of the runs. */
  lemma {:induction false} JoinRunTexts(runs: seq<Run>)
    ensures Join(RunTexts(runs), "") == PlainConcat(runs)
    decreases |runs|
  {
    if |runs| == 1 {
      assert PlainConcat(runs[1..]) == "";
    } else if |runs| > 1 {
      assert RunTexts(runs)[1..] == RunTexts(runs[1..]);
      JoinRunTexts(runs[1..]);
    }
  }

  /** textFromRich: the plain text of the runs, concatenated in order with a missing run as '',
      with white space trimmed from both ends only; an absent list is empty. */
  function TextFromRich(runs: Option<seq<Run>>): (r: string)
    ensures Unpadded(r)
    ensures exists i :: TrimmedFrom(RichPlain(runs), r, i)
  {
    var text := Join(if runs.Some? then RunTexts(runs.value) else [], "");
    JoinRunTexts(if runs.Some? then runs.value else []);
    assert text == RichPlain(runs);
    Trim(text)
  }

  /** What the names of a multi-select are joined with. */
  const OptionSeparator := ", "

  function OptionName(o: SelectOption): string {
    if o.name.Some? then o.name.value else ""
  }

  function OptionNames(options: seq<SelectOption>): (r: seq<string>)
    ensures |r| == |options| && forall i :: 0 <= i < |options| ==> r[i] == OptionName(options[i])
  {
    if options == [] then [] else [OptionName(options[0])] + OptionNames(options[1..])
  }

  /** The text of a formula's inner value. */
  function FormulaText(f: Option<FormulaResult>): string {
    match f
    case None => ""
    case Some(StringResult(t)) => if t.Some? then t.value else ""
    case Some(NumberResult(n)) => if n.Some? then IntToString(n.value) else ""
    case Some(DateResult(d)) => if d.Some? && d.value.start.Some? then d.value.start.value else ""
    case Some(OtherResult(_)) => ""
  }

  /** extractPlainText; None is JavaScript's undefined, which only a multi-select
      property with a null payload produces. */
  function ExtractPlainText(p: Option<Property>): (r: Option<string>)
    ensures r.None? <==> p == Some(MultiSelect(None))
    ensures p.Some? && (p.value.Title? || p.value.RichText?) ==> r.Some? && Unpadded(r.value)
    ensures p.Some? && (p.value.Title? || p.value.RichText?) ==> r == Some(TextFromRich(p.value.runs))
    ensures p.Some? && p.value.Select? ==>
              r == Some(if p.value.option.Some? then OptionName(p.value.option.value) else "")
    ensures p.Some? && p.value.MultiSelect? && p.value.options.Some? ==>
              r == Some(Join(OptionNames(p.value.options.value), OptionSeparator))
    ensures p.Some? && p.value.Number? && p.value.number.Some? ==>
              r.Some? && r.value != "" && r == Some(IntToString(p.value.number.value))
    ensures p == Some(Number(None)) ==> r == Some("")
    ensures p.Some? && p.value.Formula? ==> r.Some? && match p.value.result
              case None => r.value == ""
              case Some(StringResult(t)) => r.value == OrEmpty(t)
              case Some(NumberResult(n)) => r.value == if n.Some? then IntToString(n.value) else ""
              case Some(DateResult(d)) => r.value == if d.Some? && d.value.start.Some? then d.value.start.value else ""
              case Some(OtherResult(_)) => r.value == ""
    ensures p.None? || p.value.Date? || p.value.Status? || p.value.Other? ==> r == Some("")
  {
    match p
    case None => Some("")
    case Some(Title(runs)) => Some(TextFromRich(runs))
    case Some(RichText(runs)) => Some(TextFromRich(runs))
    case Some(Select(o)) => Some(if o.Some? then OptionName(o.value) else "")
    case Some(MultiSelect(os)) => if os.None? then None else Some(Join(OptionNames(os.value), OptionSeparator))
    case Some(Number(n)) => Some(if n.Some? then IntToString(n.value) else "")
    case Some(Formula(f)) => Some(FormulaText(f))
    case Some(Date(_)) => Some("")
    case Some(Status(_)) => Some("")
    case Some(Other(_)) => Some("")
  }

  /** The text of a number property, and of a number formula, reads back as the number. */
  lemma NumberTextReadsBack(n: int)
    ensures var t := ExtractPlainText(Some(Number(Some(n)))).value;
            t != [] && (if t[0] == '-' then AllDigits(t[1..]) else AllDigits(t)) && DecimalValue(t) == n
    ensures ExtractPlainText(Some(Formula(Some(NumberResult(Some(n))))))
              == ExtractPlainText(Some(Number(Some(n))))
  {
    IntToStringRoundTrip(n);
  }

  /** The text of a multi-select lists every option's name, in order, separated by ", ":
      option `i` starts after the names before it and one separator behind each of them,
      and a separator follows every name but the last. */
  lemma MultiSelectListsNames(options: seq<SelectOption>, t: string, i: nat)
    requires ExtractPlainText(Some(MultiSelect(Some(options)))) == Some(t)
    requires i < |options|
    ensures OccursAt(t, OptionName(options[i]), PartOffset(OptionNames(options), OptionSeparator, i))
    ensures i < |options| - 1 ==>
              OccursAt(t, OptionSeparator, PartOffset(OptionNames(options), OptionSeparator, i) + |OptionName(options[i])|)
  {
    MultiSelectText(options, t);
    OptionListLayout(options, t, i);
  }

  lemma MultiSelectText(options: seq<SelectOption>, t: string)
    requires ExtractPlainText(Some(MultiSelect(Some(options)))) == Some(t)
    ensures t == Join(OptionNames(options), OptionSeparator)
  {
  }

  /** Where option `i`'s name and the separator after it sit in the joined option names. */
  lemma OptionListLayout(options: seq<SelectOption>, t: string, i: nat)
    requires t == Join(OptionNames(options), OptionSeparator)
    requires i < |options|
    ensures OccursAt(t, OptionName(options[i]), PartOffset(OptionNames(options), OptionSeparator, i))
    ensures i < |options| - 1 ==>
              OccursAt(t, OptionSeparator, PartOffset(OptionNames(options), OptionSeparator, i) + |OptionName(options[i])|)
  {
    JoinPartAt(OptionNames(options), OptionSeparator, i);
    if i < |options| - 1 {
      JoinSepAt(OptionNames(options), OptionSeparator, i);
    }
  }

  /** extractDateRange: only a date property and a formula whose result is a date have one. */
  function ExtractDateRange(p: Option<Property>): (r: Option<DateRange>)
    ensures r.Some? ==> p.Some? && (p.value.Date? || (p.value.Formula? && p.value.result.Some? && p.value.result.value.DateResult?))
  {
    match p
    case Some(Date(d)) => d
    case Some(Formula(Some(DateResult(d)))) => d
    case _ => None
  }

  /** A formula whose result is a date yields the same range as a date property of that value. */
  lemma FormulaDateAsNative(d: Option<DateRange>)
    ensures ExtractDateRange(Some(Formula(Some(DateResult(d))))) == ExtractDateRange(Some(Date(d)))
  {
  }

  /** The text of a date formula is the start of the range it yields, or empty. */
  lemma FormulaDateTextIsStart(d: Option<DateRange>)
    ensures var p := Some(Formula(Some(DateResult(d))));
            ExtractPlainText(p) == Some(match ExtractDateRange(p) case Some(DateRange(Some(s), _)) => s case _ => "")
  {
  }
}
