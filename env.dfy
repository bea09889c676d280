/** src/config/env.ts: typed configuration read from the build-time environment
    (`process.env`, modelled as a map from variable name to value; a missing name is
    `undefined`). */
module Env {
  import opened JsString

  type Environment = map<string, string>

  /** `getEnvVar(key, defaultValue)`: the variable's value, or the default when it is missing
      or empty (`process.env[key] || defaultValue`). The client-side and server-side branches of
      the source are the same expression and are modelled once. */
  function GetEnvVar(env: Environment, key: string, default: string): (r: string)
    ensures key in env && env[key] != "" ==> r == env[key]
    ensures key !in env || env[key] == "" ==> r == default
  {
    if key in env && env[key] != "" then env[key] else default
  }

  /** `getEnvBoolean(key, defaultValue)`: an unset or empty variable gives the default;
      otherwise only a case-insensitive `"true"` is true. */
  function GetEnvBoolean(env: Environment, key: string, default: bool): (r: bool)
    ensures GetEnvVar(env, key, "") == "" ==> r == default
    ensures GetEnvVar(env, key, "") != "" ==> (r <==> ToLower(GetEnvVar(env, key, "")) == "true")
  {
    var value := GetEnvVar(env, key, "");
    if value == "" then default else ToLower(value) == "true"
  }

  /** `.map((item) => item.trim())` */
  function TrimEach(items: seq<string>): (r: seq<string>)
    ensures |r| == |items|
    ensures forall i :: 0 <= i < |items| ==> r[i] == Trim(items[i])
  {
    if items == [] then [] else [Trim(items[0])] + TrimEach(items[1..])
  }

  /** `.filter((item) => item !== '')` */
  function DropEmpty(items: seq<string>): (r: seq<string>)
    ensures |r| <= |items|
    ensures forall s :: s in r <==> s in items && s != ""
  {
    if items == [] then []
    else if items[0] == "" then DropEmpty(items[1..])
    else [items[0]] + DropEmpty(items[1..])
  }

  /** `filter` keeps the order: it acts on each item alone, and on a concatenation it is the
      concatenation of its results. */
  lemma {:induction false} DropEmptyAppend(a: seq<string>, b: seq<string>)
    ensures DropEmpty(a + b) == DropEmpty(a) + DropEmpty(b)
  {
    if a == [] {
      assert a + b == b;
    } else {
      assert (a + b)[0] == a[0];
      assert (a + b)[1..] == a[1..] + b;
      DropEmptyAppend(a[1..], b);
    }
  }

  /** `.map((item) => item.trim())` distributes over a concatenation. */
  lemma {:induction false} TrimEachAppend(a: seq<string>, b: seq<string>)
    ensures TrimEach(a + b) == TrimEach(a) + TrimEach(b)
  {
    if a == [] {
      assert a + b == b;
    } else {
      assert (a + b)[0] == a[0];
      assert (a + b)[1..] == a[1..] + b;
      TrimEachAppend(a[1..], b);
    }
  }

  /** `s` is one of the comma-separated pieces of `value`, trimmed, and not empty. */
  predicate ItemOf(value: string, s: string) {
    s != "" && s in TrimEach(Split(value, ','))
  }

  /** The list read out of a non-empty variable: the comma-separated pieces, trimmed, with empty
      pieces dropped. */
  function ListItems(value: string): (r: seq<string>)
    ensures forall s :: s in r <==> ItemOf(value, s)
  {
    DropEmpty(TrimEach(Split(value, ',')))
  }

  /** Text without a comma is one item (its trimmed form), or none when that is empty. */
  lemma ListItemsOfPiece(value: string)
    requires ',' !in value
    ensures ListItems(value) == if Trim(value) == "" then [] else [Trim(value)]
  {
    SplitNoSep(value, ',');
    assert TrimEach([value]) == [Trim(value)];
  }

  /** The items of the text before a comma come first, in order, then those after it. */
  lemma ListItemsAppend(a: string, b: string)
    ensures ListItems(a + [','] + b) == ListItems(a) + ListItems(b)
  {
    SplitAppend(a, b, ',');
    TrimEachAppend(Split(a, ','), Split(b, ','));
    DropEmptyAppend(TrimEach(Split(a, ',')), TrimEach(Split(b, ',')));
  }

  /** `getEnvArray(key, defaultValue)`: an unset or empty variable gives the default; otherwise
      the comma-separated pieces, trimmed, with empty pieces dropped. */
  function GetEnvArray(env: Environment, key: string, default: seq<string>): (r: seq<string>)
    ensures GetEnvVar(env, key, "") == "" ==> r == default
    ensures GetEnvVar(env, key, "") != "" ==>
              key in env && forall s :: s in r <==> ItemOf(env[key], s)
  {
    var value := GetEnvVar(env, key, "");
    if value == "" then default else ListItems(value)
  }

  /** The list parsed out of a non-empty variable: every element is non-empty, trimmed and
      free of commas, and the list is the items of the value, in the order `ListItemsAppend`
      and `ListItemsOfPiece` describe. */
  lemma GetEnvArrayElements(env: Environment, key: string, default: seq<string>)
    requires GetEnvVar(env, key, "") != ""
    ensures var r := GetEnvArray(env, key, default);
            r == ListItems(env[key])
            && forall i :: 0 <= i < |r| ==> r[i] != "" && Trimmed(r[i]) && ',' !in r[i]
  {
    var pieces := Split(env[key], ',');
    var r := ListItems(env[key]);
    forall i | 0 <= i < |r| ensures r[i] != "" && Trimmed(r[i]) && ',' !in r[i] {
      assert r[i] in r && ItemOf(env[key], r[i]);
      var k :| 0 <= k < |pieces| && TrimEach(pieces)[k] == r[i];
      TrimSlice(pieces[k]);
    }
  }

  /** What `trim` returns is a slice of its input, so it keeps no character the input lacks. */
  lemma TrimSlice(s: string)
    ensures forall c :: c in Trim(s) ==> c in s
  {
    var t := TrimStart(s);
    assert forall c :: c in t ==> c in s by {
      forall c | c in t ensures c in s {
        var i :| 0 <= i < |t| && t[i] == c;
        assert s[|s| - |t| + i] == c;
      }
    }
    var r := TrimEnd(t);
    assert forall c :: c in r ==> c in t by {
      forall c | c in r ensures c in t {
        var i :| 0 <= i < |r| && r[i] == c;
        assert t[i] == c;
      }
    }
  }

  /** Dropping empty pieces from pieces that are all empty leaves nothing. */
  lemma {:induction false} DropEmptyAllEmpty(items: seq<string>)
    requires forall i :: 0 <= i < |items| ==> items[i] == ""
    ensures DropEmpty(items) == []
  {
    if items != [] {
      DropEmptyAllEmpty(items[1..]);
    }
  }

  /** Every non-empty separator-free piece kept, and nothing else: the identity on such lists. */
  lemma {:induction false} DropEmptyOfNonEmpty(items: seq<string>)
    requires forall i :: 0 <= i < |items| ==> items[i] != ""
    ensures DropEmpty(items) == items
  {
    if items != [] {
      DropEmptyOfNonEmpty(items[1..]);
      assert [items[0]] + items[1..] == items;
    }
  }

  /** A piece of a string all of whose characters are commas or white space is white space. */
  lemma SplitPiecesOfSeparators(s: string)
    requires forall i :: 0 <= i < |s| ==> s[i] == ',' || IsWhiteSpace(s[i])
    ensures forall k :: 0 <= k < |Split(s, ',')| ==> AllWhiteSpace(Split(s, ',')[k])
  {
    if s != [] {
      SplitPiecesOfSeparators(s[1..]);
    }
  }

  /** A non-empty value made only of commas and white space parses to the empty list, not to
      the default. */
  lemma GetEnvArrayOfSeparators(env: Environment, key: string, default: seq<string>)
    requires key in env && env[key] != ""
    requires forall i :: 0 <= i < |env[key]| ==> env[key][i] == ',' || IsWhiteSpace(env[key][i])
    ensures GetEnvArray(env, key, default) == []
  {
    var pieces := Split(env[key], ',');
    SplitPiecesOfSeparators(env[key]);
    DropEmptyAllEmpty(TrimEach(pieces));
  }

  /** Round trip: a non-empty list of non-empty, trimmed, comma-free items, stored as its
      comma-joined text, is read back by `getEnvArray` as the same list. */
  lemma GetEnvArrayOfJoin(env: Environment, key: string, items: seq<string>, default: seq<string>)
    requires |items| >= 1
    requires forall i :: 0 <= i < |items| ==> items[i] != "" && Trimmed(items[i]) && ',' !in items[i]
    ensures GetEnvArray(env[key := Join(items, ',')], key, default) == items
  {
    var text := Join(items, ',');
    assert |text| >= |items[0]| > 0;
    var env' := env[key := text];
    assert GetEnvVar(env', key, "") == text;
    SplitJoin(items, ',');
    assert TrimEach(items) == items by {
      forall i | 0 <= i < |items| ensures TrimEach(items)[i] == items[i] {
        assert Trimmed(items[i]);
      }
    }
    DropEmptyOfNonEmpty(items);
  }

  /** The deployment environment as the source casts it: any string is accepted. */
  function NodeEnvironment(env: Environment): string {
    GetEnvVar(env, "NEXT_PUBLIC_NODE_ENV", "development")
  }

  /** `config.isProduction`: re-reads the variable instead of using `environment`. */
  function IsProduction(env: Environment): (r: bool)
    ensures r <==> NodeEnvironment(env) == "production"
  {
    GetEnvVar(env, "NEXT_PUBLIC_NODE_ENV", "development") == "production"
  }

  /** `isDevelopment`; an unset variable means development. */
  function IsDevelopment(env: Environment): (r: bool)
    ensures r <==> NodeEnvironment(env) == "development"
    ensures "NEXT_PUBLIC_NODE_ENV" !in env ==> r
    ensures r ==> !IsProduction(env)
  {
    NodeEnvironment(env) == "development"
  }

  /** The ad unit ids of one platform. */
  datatype UnitIds = UnitIds(banner: string, interstitial: string, reward: string)

  datatype TestingConfig = TestingConfig(
    isTestingMode: bool, testingDevices: seq<string>, initializeForTesting: bool)

  datatype AdMobConfig = AdMobConfig(
    iosAppId: string, androidAppId: string,
    iosAdIds: UnitIds, androidAdIds: UnitIds,
    testing: TestingConfig)

  /** `admobConfig`: every id falls back to Google's published test id. */
  function LoadAdMobConfig(env: Environment): (c: AdMobConfig)
    ensures c.testing.isTestingMode == c.testing.initializeForTesting
    ensures "NEXT_PUBLIC_ADMOB_TESTING_MODE" !in env ==> c.testing.isTestingMode
    ensures "NEXT_PUBLIC_ADMOB_TESTING_DEVICES" !in env ==> c.testing.testingDevices == ["DEVICE_ID_HERE"]
    ensures "NEXT_PUBLIC_ADMOB_IOS_BANNER" !in env ==> c.iosAdIds.banner == "ca-app-pub-3940256099942544/2934735716"
    ensures "NEXT_PUBLIC_ADMOB_ANDROID_BANNER" !in env ==> c.androidAdIds.banner == "ca-app-pub-3940256099942544/6300978111"
  {
    AdMobConfig(
      GetEnvVar(env, "NEXT_PUBLIC_ADMOB_IOS_APP_ID", "ca-app-pub-3940256099942544~1458002511"),
      GetEnvVar(env, "NEXT_PUBLIC_ADMOB_ANDROID_APP_ID", "ca-app-pub-3940256099942544~3347511713"),
      UnitIds(
        GetEnvVar(env, "NEXT_PUBLIC_ADMOB_IOS_BANNER", "ca-app-pub-3940256099942544/2934735716"),
        GetEnvVar(env, "NEXT_PUBLIC_ADMOB_IOS_INTERSTITIAL", "ca-app-pub-3940256099942544/4411468910"),
        GetEnvVar(env, "NEXT_PUBLIC_ADMOB_IOS_REWARD", "ca-app-pub-3940256099942544/1712485313")),
      UnitIds(
        GetEnvVar(env, "NEXT_PUBLIC_ADMOB_ANDROID_BANNER", "ca-app-pub-3940256099942544/6300978111"),
        GetEnvVar(env, "NEXT_PUBLIC_ADMOB_ANDROID_INTERSTITIAL", "ca-app-pub-3940256099942544/1033173712"),
        GetEnvVar(env, "NEXT_PUBLIC_ADMOB_ANDROID_REWARD", "ca-app-pub-3940256099942544/5224354917")),
      TestingConfig(
        GetEnvBoolean(env, "NEXT_PUBLIC_ADMOB_TESTING_MODE", true),
        GetEnvArray(env, "NEXT_PUBLIC_ADMOB_TESTING_DEVICES", ["DEVICE_ID_HERE"]),
        GetEnvBoolean(env, "NEXT_PUBLIC_ADMOB_TESTING_MODE", true)))
  }
}
