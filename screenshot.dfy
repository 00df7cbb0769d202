/**
 * The command line of scripts/capture-screenshot.js: the `--key value`
 * pairs read into a parameter object, and the check for the two parameters
 * the capture needs before any browser work starts. The browser session
 * itself (launch, navigation, waiting, the screenshot file) is not part of
 * this model.
 */
module Screenshot {
  import opened Js

  /** The one key an assignment to a plain object does not store: `params['__proto__'] = value`
      runs the prototype setter, which ignores a string. */
  const ProtoKey := "__proto__"

  /** The parameters, as the object's own string-valued properties. */
  type Params = map<string, string>

  /** `arg.replace(/^--/, '')`: one leading `--` is removed, and nothing else. */
  function StripDashes(arg: string): string {
    if StartsWith(arg, "--") then arg[2..] else arg
  }

  /** Only the first two dashes go: `----x` keeps two, `-x` keeps its one. */
  lemma StripDashesOnce(s: string)
    ensures StripDashes("--" + s) == s
    ensures !StartsWith(s, "-") ==> StripDashes(s) == s && StripDashes("-" + s) == "-" + s
  {
    assert ("--" + s)[..2] == "--" && ("--" + s)[2..] == s;
    if !StartsWith(s, "-") && |s| >= 1 {
      assert s[0] != '-';
      assert ("-" + s)[1] == s[0];
    }
  }

  /** The key of pair `n`: the argument at position 2n, without its leading `--`. */
  function KeyOf(args: seq<string>, n: nat): string
    requires 2 * n < |args|
  {
    StripDashes(args[2 * n])
  }

  /** The value of pair `n`: the argument after its key, undefined past the end. */
  function ValueOf(args: seq<string>, n: nat): Option<string>
    requires 2 * n < |args|
  {
    if 2 * n + 1 < |args| then Some(args[2 * n + 1]) else None
  }

  /** Pair `n` is stored: its key and its value are both non-empty. */
  predicate Usable(args: seq<string>, n: nat) {
    2 * n < |args| && KeyOf(args, n) != "" && Truthy(ValueOf(args, n))
  }

  /** One turn of the loop, for the pair at position 2n. */
  function Step(params: Params, args: seq<string>, n: nat): Params
    requires 2 * n < |args|
  {
    if !Usable(args, n) then params
    else if KeyOf(args, n) == ProtoKey then params
    else params[KeyOf(args, n) := ValueOf(args, n).value]
  }

  /** The number of turns the loop makes: one per even position. */
  function PairCount(args: seq<string>): nat {
    (|args| + 1) / 2
  }

  /** The parameters after the first `n` turns. */
  function ParsedUpTo(args: seq<string>, n: nat): Params
    requires n <= PairCount(args)
  {
    if n == 0 then map[] else Step(ParsedUpTo(args, n - 1), args, n - 1)
  }

  function Parsed(args: seq<string>): Params {
    ParsedUpTo(args, PairCount(args))
  }

  /** The parsing loop as the script runs it: `i` steps by two over the arguments, and a pair
      with an empty key or a missing or empty value is skipped. */
  method ParseArgs(args: seq<string>) returns (params: Params)
    ensures params == Parsed(args)
  {
    params := map[];
    var i := 0;
    while i < |args|
      invariant i % 2 == 0 && 0 <= i / 2 <= PairCount(args)
      invariant i < |args| || i / 2 == PairCount(args)
      invariant params == ParsedUpTo(args, i / 2)
    {
      var key := StripDashes(args[i]);
      var value := if i + 1 < |args| then Some(args[i + 1]) else None;
      if key == "" || !Truthy(value) {
        i := i + 2;
        continue;
      }
      if key != ProtoKey {
        params := params[key := value.value];
      }
      i := i + 2;
    }
  }

  /** After `n` turns, a key is stored exactly when some usable pair among the first `n` has it,
      and its value is that of the last such pair. */
  lemma {:induction false} ParsedUpToFacts(args: seq<string>, n: nat, key: string)
    requires n <= PairCount(args)
    ensures key in ParsedUpTo(args, n) <==>
              key != ProtoKey && exists m :: 0 <= m < n && Usable(args, m) && KeyOf(args, m) == key
    ensures key in ParsedUpTo(args, n) ==>
              exists m :: 0 <= m < n && Usable(args, m) && KeyOf(args, m) == key
                          && ParsedUpTo(args, n)[key] == ValueOf(args, m).value
                          && forall m' :: m < m' < n ==> !(Usable(args, m') && KeyOf(args, m') == key)
    decreases n
  {
    if n > 0 {
      ParsedUpToFacts(args, n - 1, key);
      var prev := ParsedUpTo(args, n - 1);
      if Usable(args, n - 1) && KeyOf(args, n - 1) == key && key != ProtoKey {
        assert ParsedUpTo(args, n)[key] == ValueOf(args, n - 1).value;
      } else {
        assert ParsedUpTo(args, n) == prev || KeyOf(args, n - 1) != key;
        assert key in ParsedUpTo(args, n) <==> key in prev;
        assert key in prev ==> ParsedUpTo(args, n)[key] == prev[key];
      }
    }
  }

  /** A key is a parameter exactly when a usable pair has it (and it is not `__proto__`). */
  lemma ParsedDomain(args: seq<string>, key: string)
    ensures key in Parsed(args) <==>
              key != ProtoKey && exists m :: Usable(args, m) && KeyOf(args, m) == key
  {
    ParsedUpToFacts(args, PairCount(args), key);
  }

  /** A later pair with the same key overwrites an earlier one: a parameter's value is the
      value of the last usable pair with its key. */
  lemma LaterPairWins(args: seq<string>, m: nat)
    requires Usable(args, m) && KeyOf(args, m) != ProtoKey
    requires forall m' :: m < m' && Usable(args, m') ==> KeyOf(args, m') != KeyOf(args, m)
    ensures KeyOf(args, m) in Parsed(args) && Parsed(args)[KeyOf(args, m)] == ValueOf(args, m).value
  {
    var key := KeyOf(args, m);
    ParsedUpToFacts(args, PairCount(args), key);
    var w :| 0 <= w < PairCount(args) && Usable(args, w) && KeyOf(args, w) == key
             && Parsed(args)[key] == ValueOf(args, w).value
             && forall m' :: w < m' < PairCount(args) ==> !(Usable(args, m') && KeyOf(args, m') == key);
    assert m < PairCount(args);
  }

  /** Every stored value is non-empty. */
  lemma {:induction false} ParsedValuesNonEmpty(args: seq<string>, n: nat)
    requires n <= PairCount(args)
    ensures forall key :: key in ParsedUpTo(args, n) ==> ParsedUpTo(args, n)[key] != ""
    decreases n
  {
    if n > 0 {
      ParsedValuesNonEmpty(args, n - 1);
    }
  }

  /** A trailing argument without a value is ignored. */
  lemma TrailingArgumentIgnored(args: seq<string>)
    requires |args| % 2 == 1
    ensures Parsed(args) == Parsed(args[..|args| - 1])
  {
    var init := args[..|args| - 1];
    var n := PairCount(init);
    assert PairCount(args) == n + 1;
    assert !Usable(args, n);
    SameTurns(args, init, n);
  }

  /** Two argument lists that agree on their first `2n` positions agree on the first `n` turns. */
  lemma {:induction false} SameTurns(a: seq<string>, b: seq<string>, n: nat)
    requires n <= PairCount(a) && n <= PairCount(b)
    requires 2 * n <= |a| && 2 * n <= |b| && a[..2 * n] == b[..2 * n]
    ensures ParsedUpTo(a, n) == ParsedUpTo(b, n)
    decreases n
  {
    if n > 0 {
      assert a[..2 * (n - 1)] == a[..2 * n][..2 * (n - 1)];
      assert b[..2 * (n - 1)] == b[..2 * n][..2 * (n - 1)];
      SameTurns(a, b, n - 1);
      assert a[2 * (n - 1)] == a[..2 * n][2 * (n - 1)];
      assert a[2 * (n - 1) + 1] == a[..2 * n][2 * (n - 1) + 1];
    }
  }

  // ---------------------------------------------------------------------
  // The required parameters

  /** What the script goes on to do: print the usage line and exit with the code, or capture
      `url` into the file at `path`. */
  datatype Launch = Usage(exitCode: int) | Capture(url: string, path: string)

  /** The parameters read from the arguments, and the check that `url` and `path` are set. */
  function Start(args: seq<string>): (r: Launch)
    ensures r.Usage? ==> r.exitCode == 1
    ensures r.Capture? ==> r.url != "" && r.path != ""
  {
    var params := Parsed(args);
    ParsedValuesNonEmpty(args, PairCount(args));
    if "url" !in params || "path" !in params then Usage(1)
    else Capture(params["url"], params["path"])
  }

  /** The usage error comes exactly when no usable pair names `url`, or none names `path`. */
  lemma UsageWhenMissing(args: seq<string>)
    ensures Start(args).Usage? <==>
              (forall m :: Usable(args, m) ==> KeyOf(args, m) != "url")
              || (forall m :: Usable(args, m) ==> KeyOf(args, m) != "path")
  {
    ParsedDomain(args, "url");
    ParsedDomain(args, "path");
  }

  /** `--url U --path P` starts a capture of U into P. */
  lemma UrlAndPath(u: string, p: string)
    requires u != "" && p != ""
    ensures Start(["--url", u, "--path", p]) == Capture(u, p)
  {
    var args := ["--url", u, "--path", p];
    StripDashesOnce("url");
    StripDashesOnce("path");
    assert KeyOf(args, 0) == "url" && KeyOf(args, 1) == "path";
    assert ParsedUpTo(args, 1) == map["url" := u];
  }
}
