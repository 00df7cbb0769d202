/**
 * The JavaScript values and string primitives that the event feed and its
 * helper scripts rely on: optional values (undefined/null), truthiness of
 * strings, String.prototype.trim, toLowerCase, includes, startsWith,
 * endsWith, Array.prototype.join and String(n) for integral numbers.
 */
module Js {

  datatype Option<T> = None | Some(value: T)

  datatype Result<T, E> = Success(value: T) | Failure(error: E)

  /** `s` used as a condition: undefined, null and the empty string are false. */
  predicate Truthy(s: Option<string>) {
    s.Some? && s.value != ""
  }

  /** The text itself, or the empty text when it is absent. */
  function OrEmpty(s: Option<string>): string {
    if s.Some? then s.value else ""
  }

  function Min(a: int, b: int): int {
    if a <= b then a else b
  }

  // ---------------------------------------------------------------------
  // trim

  /** The WhiteSpace and LineTerminator code points of ECMAScript, which trim removes. */
  predicate IsSpace(c: char) {
    c == '\t' || c == '\n' || c == '\U{B}' || c == '\U{C}' || c == '\r' || c == ' '
    || c == '\U{A0}' || c == '\U{1680}' || ('\U{2000}' <= c <= '\U{200A}')
    || c == '\U{2028}' || c == '\U{2029}' || c == '\U{202F}' || c == '\U{205F}'
    || c == '\U{3000}' || c == '\U{FEFF}'
  }

  /** Neither the first nor the last character is white space. */
  predicate Unpadded(s: string) {
    s == [] || (!IsSpace(s[0]) && !IsSpace(s[|s| - 1]))
  }

  function TrimStart(s: string): (r: string)
    ensures |r| <= |s| && r == s[|s| - |r|..]
    ensures forall i :: 0 <= i < |s| - |r| ==> IsSpace(s[i])
    ensures r == [] || !IsSpace(r[0])
  {
    if s != [] && IsSpace(s[0]) then TrimStart(s[1..]) else s
  }

  function TrimEnd(s: string): (r: string)
    ensures |r| <= |s| && r == s[..|r|]
    ensures forall i :: |r| <= i < |s| ==> IsSpace(s[i])
    ensures r == [] || !IsSpace(r[|r| - 1])
  {
    if s != [] && IsSpace(s[|s| - 1]) then TrimEnd(s[..|s| - 1]) else s
  }

  /** `r` is `s` with the first `i` and the last `|s| - i - |r|` characters, all white space, removed. */
  predicate TrimmedFrom(s: string, r: string, i: int) {
    0 <= i <= |s| - |r| && r == s[i..i + |r|]
    && (forall k :: 0 <= k < i ==> IsSpace(s[k]))
    && (forall k :: i + |r| <= k < |s| ==> IsSpace(s[k]))
  }

  /** String.prototype.trim: white space is removed from both ends and nowhere else. */
  function Trim(s: string): (r: string)
    ensures Unpadded(r)
    ensures exists i :: TrimmedFrom(s, r, i)
  {
    var t := TrimStart(s);
    var r := TrimEnd(t);
    assert r == [] || r[0] == t[0];
    assert TrimmedFrom(s, r, |s| - |t|);
    r
  }

  lemma {:induction false} TrimOfUnpadded(s: string)
    requires Unpadded(s)
    ensures Trim(s) == s
  {
    var t := TrimStart(s);
    assert t == s;
  }

  lemma TrimIdempotent(s: string)
    ensures Trim(Trim(s)) == Trim(s)
  {
    TrimOfUnpadded(Trim(s));
  }

  // ---------------------------------------------------------------------
  // toLowerCase

  /** toLowerCase on one character, for the Basic Latin and Latin-1 capitals. */
  function LowerChar(c: char): char {
    if 'A' <= c <= 'Z' || ('\U{C0}' <= c <= '\U{DE}' && c != '\U{D7}') then (c as int + 32) as char else c
  }

  function ToLower(s: string): (r: string)
    ensures |r| == |s| && forall i :: 0 <= i < |s| ==> r[i] == LowerChar(s[i])
  {
    if s == [] then [] else [LowerChar(s[0])] + ToLower(s[1..])
  }

  lemma ToLowerIdempotent(s: string)
    ensures ToLower(ToLower(s)) == ToLower(s)
  {
    var l := ToLower(s);
    assert forall i :: 0 <= i < |l| ==> LowerChar(l[i]) == l[i];
  }

  // ---------------------------------------------------------------------
  // startsWith, endsWith, includes

  predicate StartsWith(s: string, prefix: string) {
    |prefix| <= |s| && s[..|prefix|] == prefix
  }

  predicate EndsWith(s: string, suffix: string) {
    |suffix| <= |s| && s[|s| - |suffix|..] == suffix
  }

  /** String.prototype.includes */
  predicate Includes(s: string, sub: string)
    decreases |s|
  {
    StartsWith(s, sub) || (s != [] && Includes(s[1..], sub))
  }

  /** A string that contains `longer` contains every prefix of it. */
  lemma {:induction false} IncludesPrefixOf(s: string, longer: string, sub: string)
    requires Includes(s, longer) && StartsWith(longer, sub)
    ensures Includes(s, sub)
    decreases |s|
  {
    if StartsWith(s, longer) {
      assert s[..|sub|] == longer[..|sub|];
    } else {
      IncludesPrefixOf(s[1..], longer, sub);
    }
  }

  // ---------------------------------------------------------------------
  // join

  /** Array.prototype.join */
  function Join(parts: seq<string>, sep: string): string {
    if |parts| == 0 then ""
    else if |parts| == 1 then parts[0]
    else parts[0] + sep + Join(parts[1..], sep)
  }

  /** `t` sits in `s` from position `k` on. */
  predicate OccursAt(s: string, t: string, k: int) {
    0 <= k && k + |t| <= |s| && s[k..k + |t|] == t
  }

  /** The number of characters of all the parts together. */
  function TotalLength(parts: seq<string>): nat {
    if parts == [] then 0 else |parts[0]| + TotalLength(parts[1..])
  }

  /** Where part `i` starts in the joined text: after the parts before it and one separator
      behind each of them. */
  function PartOffset(parts: seq<string>, sep: string, i: nat): nat
    requires i <= |parts|
  {
    TotalLength(parts[..i]) + i * |sep|
  }

  /** The joined text is the parts in order with one separator between neighbours and
      nothing else: every part and every separator sits at its offset, and the length adds up. */
  lemma JoinLayout(parts: seq<string>, sep: string)
    ensures parts == [] ==> Join(parts, sep) == ""
    ensures parts != [] ==> |Join(parts, sep)| == TotalLength(parts) + (|parts| - 1) * |sep|
    ensures forall i :: 0 <= i < |parts| ==> OccursAt(Join(parts, sep), parts[i], PartOffset(parts, sep, i))
    ensures forall i :: 0 <= i < |parts| - 1 ==>
              OccursAt(Join(parts, sep), sep, PartOffset(parts, sep, i) + |parts[i]|)
  {
    if parts != [] {
      JoinLength(parts, sep);
    }
    forall i | 0 <= i < |parts|
      ensures OccursAt(Join(parts, sep), parts[i], PartOffset(parts, sep, i))
    {
      JoinPartAt(parts, sep, i);
    }
    forall i | 0 <= i < |parts| - 1
      ensures OccursAt(Join(parts, sep), sep, PartOffset(parts, sep, i) + |parts[i]|)
    {
      JoinSepAt(parts, sep, i);
    }
  }

  lemma {:induction false} JoinLength(parts: seq<string>, sep: string)
    requires parts != []
    ensures |Join(parts, sep)| == TotalLength(parts) + (|parts| - 1) * |sep|
    decreases |parts|
  {
    if |parts| > 1 {
      JoinLength(parts[1..], sep);
      assert (|parts| - 2) * |sep| + |sep| == (|parts| - 1) * |sep|;
    }
  }

  lemma {:induction false} JoinPartAt(parts: seq<string>, sep: string, i: nat)
    requires i < |parts|
    ensures OccursAt(Join(parts, sep), parts[i], PartOffset(parts, sep, i))
    decreases |parts|
  {
    assert parts[..0] == [];
    if |parts| > 1 {
      var rest := parts[1..];
      if i == 0 {
        assert Join(parts, sep) == parts[0] + (sep + Join(rest, sep));
        OccursPrefix(parts[0], sep + Join(rest, sep), parts[0], 0);
      } else {
        JoinPartAt(rest, sep, i - 1);
        PartOffsetStep(parts, sep, i);
        assert rest[i - 1] == parts[i];
        assert Join(parts, sep) == (parts[0] + sep) + Join(rest, sep);
        OccursShift(parts[0] + sep, Join(rest, sep), parts[i], PartOffset(rest, sep, i - 1));
      }
    }
  }

  lemma {:induction false} JoinSepAt(parts: seq<string>, sep: string, i: nat)
    requires i + 1 < |parts|
    ensures OccursAt(Join(parts, sep), sep, PartOffset(parts, sep, i) + |parts[i]|)
    decreases |parts|
  {
    var rest := parts[1..];
    if i == 0 {
      assert parts[..0] == [];
      assert Join(parts, sep) == parts[0] + (sep + Join(rest, sep));
      OccursPrefix(sep, Join(rest, sep), sep, 0);
      OccursShift(parts[0], sep + Join(rest, sep), sep, 0);
    } else {
      JoinSepAt(rest, sep, i - 1);
      PartOffsetStep(parts, sep, i);
      assert rest[i - 1] == parts[i];
      assert Join(parts, sep) == (parts[0] + sep) + Join(rest, sep);
      OccursShift(parts[0] + sep, Join(rest, sep), sep, PartOffset(rest, sep, i - 1) + |rest[i - 1]|);
    }
  }

  lemma PartOffsetStep(parts: seq<string>, sep: string, i: nat)
    requires 1 <= i <= |parts|
    ensures PartOffset(parts, sep, i) == |parts[0]| + |sep| + PartOffset(parts[1..], sep, i - 1)
  {
    assert parts[..i][0] == parts[0];
    assert parts[..i][1..] == parts[1..][..i - 1];
    assert (i - 1) * |sep| + |sep| == i * |sep|;
  }

  /** Part `i` starts one part and one separator after part `i - 1`. */
  lemma PartOffsetStepBack(parts: seq<string>, sep: string, i: nat)
    requires 1 <= i <= |parts|
    ensures PartOffset(parts, sep, i) == PartOffset(parts, sep, i - 1) + |parts[i - 1]| + |sep|
  {
    TotalLengthSnoc(parts[..i - 1], parts[i - 1]);
    assert parts[..i - 1] + [parts[i - 1]] == parts[..i];
    assert (i - 1) * |sep| + |sep| == i * |sep|;
  }

  lemma {:induction false} TotalLengthSnoc(parts: seq<string>, last: string)
    ensures TotalLength(parts + [last]) == TotalLength(parts) + |last|
    decreases |parts|
  {
    if parts != [] {
      TotalLengthSnoc(parts[1..], last);
      assert (parts + [last])[1..] == parts[1..] + [last];
    }
  }

  /** A piece of an occurrence is the same piece of the text it occurs in. */
  lemma OccursSlice(s: string, t: string, k: int, a: int, b: int)
    requires OccursAt(s, t, k) && 0 <= a <= b <= |t|
    ensures s[k + a..k + b] == t[a..b]
  {
    forall x | 0 <= x < b - a ensures s[k + a..k + b][x] == t[a..b][x] {
      assert s[k..k + |t|][a + x] == t[a + x];
    }
  }

  /** The last character of the separator stands just before every part but the first. */
  lemma SeparatorEndsBeforePart(parts: seq<string>, sep: string, i: nat)
    requires 0 < i < |parts| && sep != []
    ensures PartOffset(parts, sep, i) >= 1
    ensures OccursAt(Join(parts, sep), sep[|sep| - 1..], PartOffset(parts, sep, i) - 1)
  {
    var q := PartOffset(parts, sep, i - 1) + |parts[i - 1]|;
    PartOffsetStepBack(parts, sep, i);
    JoinSepAt(parts, sep, i - 1);
    OccursInner(Join(parts, sep), sep, q, |sep| - 1, |sep|);
  }

  /** A piece of an occurrence occurs where that piece begins. */
  lemma OccursInner(s: string, t: string, k: int, a: int, b: int)
    requires OccursAt(s, t, k) && 0 <= a <= b <= |t|
    ensures OccursAt(s, t[a..b], k + a)
  {
    OccursSlice(s, t, k, a, b);
  }

  lemma OccursShift(a: string, b: string, t: string, k: int)
    requires OccursAt(b, t, k)
    ensures OccursAt(a + b, t, |a| + k)
  {
    assert (a + b)[|a| + k..|a| + k + |t|] == b[k..k + |t|];
  }

  lemma OccursPrefix(a: string, b: string, t: string, k: int)
    requires OccursAt(a, t, k)
    ensures OccursAt(a + b, t, k)
  {
    assert (a + b)[k..k + |t|] == a[k..k + |t|];
  }

  // ---------------------------------------------------------------------
  // filter, and map followed by filter(Boolean)

  /** Array.prototype.filter */
  function Filter<T>(s: seq<T>, p: T -> bool): (r: seq<T>)
    ensures |r| <= |s|
    ensures forall i :: 0 <= i < |r| ==> p(r[i]) && r[i] in s
    ensures forall x :: x in s && p(x) ==> x in r
    ensures multiset(r) <= multiset(s)
    ensures forall x :: x in s ==> multiset(r)[x] == if p(x) then multiset(s)[x] else 0
  {
    if s == [] then []
    else
      assert s == [s[0]] + s[1..];
      (if p(s[0]) then [s[0]] else []) + Filter(s[1..], p)
  }

  /** filter works element by element and keeps the order: it distributes over concatenation. */
  lemma {:induction false} FilterAppend<T>(a: seq<T>, b: seq<T>, p: T -> bool)
    ensures Filter(a + b, p) == Filter(a, p) + Filter(b, p)
    decreases |a|
  {
    if a == [] {
      assert a + b == b;
    } else {
      assert (a + b)[0] == a[0];
      assert (a + b)[1..] == a[1..] + b;
      FilterAppend(a[1..], b, p);
    }
  }

  /** `s.map(f).filter(Boolean)`, for an f that returns null (None) for what it drops */
  function MapSome<T, U>(s: seq<T>, f: T -> Option<U>): (r: seq<U>)
    ensures |r| <= |s|
    ensures forall i :: 0 <= i < |r| ==> exists k :: 0 <= k < |s| && f(s[k]) == Some(r[i])
  {
    if s == [] then []
    else
      var rest := MapSome(s[1..], f);
      assert forall i :: 0 <= i < |rest| ==> exists k :: 1 <= k < |s| && f(s[k]) == Some(rest[i]) by {
        forall i | 0 <= i < |rest| ensures exists k :: 1 <= k < |s| && f(s[k]) == Some(rest[i]) {
          var k :| 0 <= k < |s[1..]| && f(s[1..][k]) == Some(rest[i]);
          assert s[1..][k] == s[k + 1];
        }
      }
      (match f(s[0]) case Some(x) => [x] case None => []) + rest
  }

  /** map-then-filter works element by element: it distributes over concatenation. */
  lemma {:induction false} MapSomeAppend<T, U>(a: seq<T>, b: seq<T>, f: T -> Option<U>)
    ensures MapSome(a + b, f) == MapSome(a, f) + MapSome(b, f)
    decreases |a|
  {
    if a == [] {
      assert a + b == b;
    } else {
      var head := match f(a[0]) case Some(x) => [x] case None => [];
      assert (a + b)[0] == a[0];
      assert (a + b)[1..] == a[1..] + b;
      MapSomeAppend(a[1..], b, f);
      assert MapSome(a + b, f) == head + (MapSome(a[1..], f) + MapSome(b, f));
    }
  }

  // ---------------------------------------------------------------------
  // String(n) for an integral number

  predicate IsDigit(c: char) {
    '0' <= c <= '9'
  }

  predicate AllDigits(s: string) {
    forall i :: 0 <= i < |s| ==> IsDigit(s[i])
  }

  function DigitChar(d: nat): (c: char)
    requires d < 10
    ensures IsDigit(c) && c as int - '0' as int == d
  {
    ('0' as int + d) as char
  }

  /** Decimal digits of `n`, without leading zeros. */
  function NatToString(n: nat): (r: string)
    ensures r != [] && AllDigits(r)
    ensures |r| > 1 ==> r[0] != '0'
    decreases n
  {
    if n < 10 then [DigitChar(n)] else NatToString(n / 10) + [DigitChar(n % 10)]
  }

  /** The number a string of decimal digits denotes. */
  function DigitsValue(s: string): nat
    requires AllDigits(s)
  {
    if s == [] then 0 else DigitsValue(s[..|s| - 1]) * 10 + (s[|s| - 1] as int - '0' as int)
  }

  /** String(n) for an integer n. */
  function IntToString(n: int): (r: string)
    ensures r != []
  {
    if n < 0 then "-" + NatToString(-n) else NatToString(n)
  }

  /** Reads back what IntToString writes. */
  function DecimalValue(s: string): int
    requires s != [] && (if s[0] == '-' then AllDigits(s[1..]) else AllDigits(s))
  {
    if s[0] == '-' then -(DigitsValue(s[1..]) as int) else DigitsValue(s)
  }

  lemma {:induction false} NatToStringValue(n: nat)
    ensures DigitsValue(NatToString(n)) == n
    decreases n
  {
    if n >= 10 {
      NatToStringValue(n / 10);
      var r := NatToString(n);
      assert r[..|r| - 1] == NatToString(n / 10);
    }
  }

  lemma IntToStringRoundTrip(n: int)
    ensures var r := IntToString(n);
            (if r[0] == '-' then AllDigits(r[1..]) else AllDigits(r)) && DecimalValue(r) == n
  {
    var r := IntToString(n);
    if n < 0 {
      assert r[1..] == NatToString(-n);
      NatToStringValue(-n);
    } else {
      NatToStringValue(n);
    }
  }
}
