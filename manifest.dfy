/**
 * The slide manifest of scripts/generate-manifest.js: which directory
 * entries are slide images, the list of slide names, and the manifest text
 * written for it with the count returned.
 *
 * The directory listing is given as a sequence of entries; the collation
 * that orders the names (localeCompare with numeric, base-sensitivity
 * options) is a parameter, a comparison that returns a negative, zero or
 * positive number.
 */
module Manifest {
  import opened Js

  const ImageExtensions: seq<string> := [".png", ".jpg", ".jpeg", ".gif", ".webp", ".bmp", ".svg"]
  const ProgramImage := "program.png"

  // ---------------------------------------------------------------------
  // isSlideImage

  /** One of the image extensions ends `lower` (`IMAGE_EXTENSIONS.some(...)`). */
  predicate HasImageExtension(lower: string) {
    exists ext :: ext in ImageExtensions && EndsWith(lower, ext)
  }

  /** isSlideImage: an image file by its lower-cased name, except the program image. */
  predicate IsSlideImage(filename: string)
    ensures IsSlideImage(filename) ==> ToLower(filename) != ProgramImage && |filename| >= 4
  {
    var lower := ToLower(filename);
    assert forall ext :: ext in ImageExtensions ==> |ext| >= 4;
    lower != ProgramImage && HasImageExtension(lower)
  }

  /** The program image is never a slide, in any casing, although its extension is an image one. */
  lemma ProgramImageExcluded(filename: string)
    requires ToLower(filename) == ProgramImage
    ensures HasImageExtension(ToLower(filename)) && !IsSlideImage(filename)
  {
    assert EndsWith(ProgramImage, ".png");
  }

  /** The decision ignores case: a name and its lower-cased form are slides alike. */
  lemma SlideImageIgnoresCase(filename: string)
    ensures IsSlideImage(ToLower(filename)) == IsSlideImage(filename)
  {
    ToLowerIdempotent(filename);
  }

  /** Every name other than the program image whose lower-cased form ends with an image
      extension is a slide, whatever the casing of the extension. */
  lemma ImageExtensionInAnyCase(filename: string, stem: string, ext: string)
    requires ext in ImageExtensions && ToLower(filename) == stem + ext && ToLower(filename) != ProgramImage
    ensures IsSlideImage(filename)
  {
    var lower := ToLower(filename);
    assert lower[|lower| - |ext|..] == ext;
  }

  /** A name without an image extension, such as the manifest file itself, is no slide. */
  lemma ManifestIsNoSlide(name: string)
    requires name == "manifest.json"
    ensures !IsSlideImage(name)
  {
    var lower := ToLower(name);
    assert |lower| == 13 && lower[12] == 'n';
    forall ext | ext in ImageExtensions ensures !EndsWith(lower, ext) {
      assert ext[|ext| - 1] != 'n';
    }
  }

  // ---------------------------------------------------------------------
  // collectImages

  /** A directory entry: its name and whether it is a regular file. */
  datatype DirEntry = DirEntry(name: string, isFile: bool)

  /** The entries that are regular files, in listing order. */
  function Files(entries: seq<DirEntry>): (r: seq<DirEntry>)
    ensures forall e :: e in r <==> e in entries && e.isFile
  {
    Filter(entries, (e: DirEntry) => e.isFile)
  }

  /** The names of the entries, in listing order. */
  function Names(entries: seq<DirEntry>): (r: seq<string>)
    ensures |r| == |entries| && forall i :: 0 <= i < |entries| ==> r[i] == entries[i].name
  {
    if entries == [] then [] else [entries[0].name] + Names(entries[1..])
  }

  /** The names of the regular files that are slide images, in listing order. */
  function SlideNames(entries: seq<DirEntry>): seq<string> {
    Filter(Names(Files(entries)), IsSlideImage)
  }

  /** A name is a slide exactly when some regular file of the listing has it and is a slide image. */
  lemma SlideNamesMembers(entries: seq<DirEntry>, x: string)
    ensures x in SlideNames(entries) <==> IsSlideImage(x) && DirEntry(x, true) in entries
  {
    var files := Files(entries);
    var names := Names(files);
    if x in SlideNames(entries) {
      assert x in names;
      var i :| 0 <= i < |names| && names[i] == x;
      assert files[i] in files;
    }
    if IsSlideImage(x) && DirEntry(x, true) in entries {
      assert DirEntry(x, true) in files;
      var i :| 0 <= i < |files| && files[i] == DirEntry(x, true);
      assert names[i] == x;
    }
  }

  /** Puts `x` after the last name that does not collate after it (a stable insertion). */
  function InsertName(s: seq<string>, x: string, compare: (string, string) -> int): (r: seq<string>)
    ensures |r| == |s| + 1
  {
    if s == [] || compare(s[|s| - 1], x) <= 0 then s + [x]
    else InsertName(s[..|s| - 1], x, compare) + [s[|s| - 1]]
  }

  /** `.sort(compare)`, as a stable insertion sort by the given collation. */
  function SortNames(s: seq<string>, compare: (string, string) -> int): (r: seq<string>)
    ensures |r| == |s|
  {
    if s == [] then [] else InsertName(SortNames(s[..|s| - 1], compare), s[|s| - 1], compare)
  }

  lemma {:induction false} InsertNamePermutes(s: seq<string>, x: string, compare: (string, string) -> int)
    ensures multiset(InsertName(s, x, compare)) == multiset(s) + multiset{x}
    decreases |s|
  {
    if s != [] && compare(s[|s| - 1], x) > 0 {
      assert s == s[..|s| - 1] + [s[|s| - 1]];
      InsertNamePermutes(s[..|s| - 1], x, compare);
    }
  }

  /** Whatever the collation, the sort neither adds nor drops a name. */
  lemma {:induction false} SortNamesPermutes(s: seq<string>, compare: (string, string) -> int)
    ensures multiset(SortNames(s, compare)) == multiset(s)
    decreases |s|
  {
    if s != [] {
      assert s == s[..|s| - 1] + [s[|s| - 1]];
      SortNamesPermutes(s[..|s| - 1], compare);
      InsertNamePermutes(SortNames(s[..|s| - 1], compare), s[|s| - 1], compare);
    }
  }

  /** collectImages: the slide names of the listing, ordered by the collation. The result
      holds each slide name as often as the listing does, and nothing else. */
  function CollectImages(entries: seq<DirEntry>, compare: (string, string) -> int): (r: seq<string>)
    ensures multiset(r) == multiset(SlideNames(entries))
    ensures forall x :: x in r <==> IsSlideImage(x) && DirEntry(x, true) in entries
  {
    var slides := SlideNames(entries);
    SortNamesPermutes(slides, compare);
    assert forall x :: x in SortNames(slides, compare) <==> x in slides by {
      forall x ensures x in SortNames(slides, compare) <==> x in slides {
        assert x in multiset(SortNames(slides, compare)) <==> x in multiset(slides);
      }
    }
    forall x ensures x in slides <==> IsSlideImage(x) && DirEntry(x, true) in entries {
      SlideNamesMembers(entries, x);
    }
    SortNames(slides, compare)
  }

  // ---------------------------------------------------------------------
  // writeManifest

  function HexDigit(d: nat): char
    requires d < 16
  {
    "0123456789abcdef"[d]
  }

  /** The character a JSON escape `\x` stands for, for the one-letter escapes. */
  function ShortEscape(c: char): Option<char> {
    match c
    case '"' => Some('"')
    case '\\' => Some('\\')
    case '/' => Some('/')
    case 'b' => Some('\U{8}')
    case 't' => Some('\t')
    case 'n' => Some('\n')
    case 'f' => Some('\U{C}')
    case 'r' => Some('\r')
    case _ => None
  }

  /** How JSON.stringify writes one character of a string (QuoteJSONString). */
  function EscapeChar(c: char): string {
    if c == '\U{8}' then "\\b"
    else if c == '\t' then "\\t"
    else if c == '\n' then "\\n"
    else if c == '\U{C}' then "\\f"
    else if c == '\r' then "\\r"
    else if c == '"' then "\\\""
    else if c == '\\' then "\\\\"
    else if c < ' ' then "\\u00" + [HexDigit(c as int / 16), HexDigit(c as int % 16)]
    else [c]
  }

  function Escape(s: string): string {
    if s == [] then "" else EscapeChar(s[0]) + Escape(s[1..])
  }

  /** JSON.stringify of a string. */
  function Quote(s: string): string {
    "\"" + Escape(s) + "\""
  }

  // Reading a quoted string back, as JSON.parse does.

  function HexValue(c: char): Option<nat> {
    if '0' <= c <= '9' then Some(c as int - '0' as int)
    else if 'a' <= c <= 'f' then Some(c as int - 'a' as int + 10)
    else if 'A' <= c <= 'F' then Some(c as int - 'A' as int + 10)
    else None
  }

  /** The value of four hex digits, None unless all four are hex digits. */
  function Hex4(t: string): Option<nat>
    requires |t| == 4
  {
    match (HexValue(t[0]), HexValue(t[1]), HexValue(t[2]), HexValue(t[3]))
    case (Some(a), Some(b), Some(c), Some(d)) => Some(((a * 16 + b) * 16 + c) * 16 + d)
    case _ => None
  }

  function Cons(c: char, rest: Option<string>): Option<string> {
    if rest.Some? then Some([c] + rest.value) else None
  }

  /** The characters an escaped string body stands for; None where it is not valid JSON
      (a raw quote or control character, a bad escape, or a lone surrogate code). */
  function Unescape(t: string): Option<string>
    decreases |t|
  {
    if t == [] then Some([])
    else if t[0] == '\\' then
      if |t| < 2 then None
      else if t[1] == 'u' then
        if |t| < 6 then None
        else match Hex4(t[2..6])
          case None => None
          case Some(v) =>
            if v < 0xD800 || 0xE000 <= v then Cons(v as char, Unescape(t[6..])) else None
      else match ShortEscape(t[1])
        case Some(c) => Cons(c, Unescape(t[2..]))
        case None => None
    else if t[0] == '"' || t[0] < ' ' then None
    else Cons(t[0], Unescape(t[1..]))
  }

  lemma HexDigitValue(d: nat)
    requires d < 16
    ensures HexValue(HexDigit(d)) == Some(d)
  {
  }

  /** Reading back one written character gives the character. */
  lemma UnescapeChar(c: char, rest: string)
    ensures Unescape(EscapeChar(c) + rest) == Cons(c, Unescape(rest))
  {
    var t := EscapeChar(c) + rest;
    if c < ' ' && c != '\U{8}' && c != '\t' && c != '\n' && c != '\U{C}' && c != '\r' {
      var hi, lo := c as int / 16, c as int % 16;
      HexDigitValue(hi);
      HexDigitValue(lo);
      assert t[2..6] == ['0', '0', HexDigit(hi), HexDigit(lo)];
      assert t[6..] == rest;
      assert Hex4(t[2..6]) == Some(c as int);
    } else if c == '\U{8}' || c == '\t' || c == '\n' || c == '\U{C}' || c == '\r' || c == '"' || c == '\\' {
      assert t[2..] == rest;
    } else {
      assert t[1..] == rest;
    }
  }

  /** JSON.parse undoes JSON.stringify on every string: the names come back as written. */
  lemma {:induction false} UnescapeEscape(s: string)
    ensures Unescape(Escape(s)) == Some(s)
    decreases |s|
  {
    if s != [] {
      UnescapeEscape(s[1..]);
      UnescapeChar(s[0], Escape(s[1..]));
      assert [s[0]] + s[1..] == s;
    }
  }

  /** The written form of a string has no raw control character, so each name stays on its line. */
  lemma {:induction false} EscapeHasNoControl(s: string)
    ensures forall i :: 0 <= i < |Escape(s)| ==> Escape(s)[i] >= ' '
    decreases |s|
  {
    if s != [] {
      EscapeHasNoControl(s[1..]);
      var e := EscapeChar(s[0]);
      assert forall i :: 0 <= i < |e| ==> e[i] >= ' ';
      assert Escape(s) == e + Escape(s[1..]);
    }
  }

  /** The lines of the images array, each name quoted and indented by four spaces. */
  function ItemLines(slides: seq<string>): (r: seq<string>)
    ensures |r| == |slides|
    ensures forall i :: 0 <= i < |slides| ==> r[i] == "    " + Quote(slides[i])
  {
    if slides == [] then [] else ["    " + Quote(slides[0])] + ItemLines(slides[1..])
  }

  /** The manifest up to and including the images array's opening bracket. */
  const ManifestHead := "{\n  \"images\": ["

  /** What ends every line of the images array but its last. */
  const ItemSeparator := ",\n"

  /** The images array after its opening bracket, laid out with two spaces of indent per
      level: empty as `]`, otherwise one name per line and the bracket on a line of its own. */
  function ImagesAfterBracket(slides: seq<string>): string {
    if slides == [] then "]" else "\n" + Join(ItemLines(slides), ItemSeparator) + "\n  ]"
  }

  /** The whole manifest file: an object with the single key `images`, then a newline. */
  function ManifestText(slides: seq<string>): string {
    ManifestHead + ImagesAfterBracket(slides) + "\n}\n"
  }

  /** What writeManifest leaves: the text of manifest.json and the number it returns. */
  datatype Written = Written(contents: string, count: nat)

  /** writeManifest: the manifest text ends with a newline, and the count returned is the
      number of names in the array written. */
  function WriteManifest(slides: seq<string>): (w: Written)
    ensures w.contents == ManifestText(slides)
    ensures w.count == |slides|
    ensures EndsWith(w.contents, "}\n") && StartsWith(w.contents, "{\n  \"images\": [")
    ensures slides == [] <==> w.contents == "{\n  \"images\": []\n}\n"
  {
    var text := ManifestText(slides);
    var head := ManifestHead;
    assert text == head + (ImagesAfterBracket(slides) + "\n}\n");
    assert text[..|head|] == head;
    assert text[|text| - 2..] == "}\n";
    assert slides != [] ==> text[|head|] == '\n';
    Written(text, |slides|)
  }

  /** Where line `i` of the images array starts in the manifest text. */
  function LineOffset(slides: seq<string>, i: nat): nat
    requires i < |slides|
  {
    |ManifestHead| + 1 + PartOffset(ItemLines(slides), ItemSeparator, i)
  }

  /** Every name is written on a line of its own, in order, indented by four spaces and quoted. */
  lemma ManifestListsNames(slides: seq<string>, i: nat)
    requires i < |slides|
    ensures OccursAt(WriteManifest(slides).contents, "    " + Quote(slides[i]), LineOffset(slides, i))
    ensures OccursAt(WriteManifest(slides).contents, "\n", LineOffset(slides, i) - 1)
  {
    ItemLineOccurs(slides, i);
    if i == 0 {
      NewlineAfterHead(slides);
    } else {
      NewlineAfterSeparator(slides, i);
    }
  }

  /** What stands between the quotes on a name's line of the manifest text reads back as the
      name: JSON.parse recovers every name the manifest lists. */
  lemma ManifestNamesReadBack(slides: seq<string>, i: nat, c: string, k: nat)
    requires i < |slides|
    requires c == ManifestText(slides) && k == LineOffset(slides, i)
    ensures k + 5 + |Escape(slides[i])| <= |c|
    ensures Unescape(c[k + 5..k + 5 + |Escape(slides[i])|]) == Some(slides[i])
  {
    EscapedNameAt(slides, i, c, k);
    UnescapeEscape(slides[i]);
  }

  /** Between the quotes of a name's line of the manifest text stands the name's escaped form. */
  lemma EscapedNameAt(slides: seq<string>, i: nat, c: string, k: nat)
    requires i < |slides|
    requires c == ManifestText(slides) && k == LineOffset(slides, i)
    ensures k + 5 + |Escape(slides[i])| <= |c|
    ensures c[k + 5..k + 5 + |Escape(slides[i])|] == Escape(slides[i])
  {
    ItemLineOccurs(slides, i);
    EscapedInLine(c, k, slides[i]);
  }

  /** Between the quotes of a name's line stands the name's escaped form. */
  lemma EscapedInLine(c: string, k: int, name: string)
    requires OccursAt(c, "    " + Quote(name), k)
    ensures k + 5 + |Escape(name)| <= |c|
    ensures c[k + 5..k + 5 + |Escape(name)|] == Escape(name)
  {
    var e := Escape(name);
    var line := "    " + Quote(name);
    OccursSlice(c, line, k, 5, 5 + |e|);
    assert line[5..5 + |e|] == e;
  }

  /** Line `i` of the images array stands in the manifest text at its offset. */
  lemma ItemLineOccurs(slides: seq<string>, i: nat)
    requires i < |slides|
    ensures OccursAt(ManifestText(slides), "    " + Quote(slides[i]), LineOffset(slides, i))
  {
    var lines := ItemLines(slides);
    JoinPartAt(lines, ItemSeparator, i);
    LineInManifest(slides, lines[i], PartOffset(lines, ItemSeparator, i));
  }

  /** Every line but the first starts after the newline of the separator before it. */
  lemma NewlineAfterSeparator(slides: seq<string>, i: nat)
    requires 0 < i < |slides|
    ensures OccursAt(ManifestText(slides), "\n", LineOffset(slides, i) - 1)
  {
    var lines := ItemLines(slides);
    NewlineInLines(lines, i);
    LineInManifest(slides, "\n", PartOffset(lines, ItemSeparator, i) - 1);
  }

  /** In the joined lines, a newline stands just before every line but the first. */
  lemma NewlineInLines(lines: seq<string>, i: nat)
    requires 0 < i < |lines|
    ensures PartOffset(lines, ItemSeparator, i) >= 1
    ensures OccursAt(Join(lines, ItemSeparator), "\n", PartOffset(lines, ItemSeparator, i) - 1)
  {
    SeparatorEndsBeforePart(lines, ItemSeparator, i);
    assert ItemSeparator[|ItemSeparator| - 1..] == "\n";
  }

  /** The first line starts after the newline that follows the opening bracket. */
  lemma NewlineAfterHead(slides: seq<string>)
    requires slides != []
    ensures OccursAt(ManifestText(slides), "\n", |ManifestHead|)
  {
    var rest := "\n" + Join(ItemLines(slides), ItemSeparator) + "\n  ]" + "\n}\n";
    assert ManifestText(slides) == ManifestHead + rest;
    assert rest[0..1] == "\n";
    OccursShift(ManifestHead, rest, "\n", 0);
  }

  /** What occurs in the joined lines occurs in the manifest, one newline after the head. */
  lemma LineInManifest(slides: seq<string>, t: string, p: int)
    requires slides != []
    requires OccursAt(Join(ItemLines(slides), ItemSeparator), t, p)
    ensures OccursAt(ManifestText(slides), t, |ManifestHead| + 1 + p)
  {
    var j := Join(ItemLines(slides), ItemSeparator);
    OccursShift("\n", j, t, p);
    OccursPrefix("\n" + j, "\n  ]", t, 1 + p);
    OccursShift(ManifestHead, "\n" + j + "\n  ]", t, 1 + p);
    OccursPrefix(ManifestHead + ("\n" + j + "\n  ]"), "\n}\n", t, |ManifestHead| + 1 + p);
  }
}
