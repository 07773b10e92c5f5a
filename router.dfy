/** The hash router (`Router`): the parameter codec of the URL fragment, the
    route table with its required parameters, and navigation with its
    fallback to the cycles page. `encodeURIComponent` and
    `decodeURIComponent` are parameters (a `Codec`). */
module Router {
  import opened Common
  import opened Strings

  // ---------------------------------------------------------------- parameters

  /** A parameter object: its own entries, in insertion order. */
  type Params = seq<(string, string)>

  /** The keys, in order. */
  function KeysOf(p: Params): (r: seq<string>)
    ensures |r| == |p| && forall i :: 0 <= i < |p| ==> r[i] == p[i].0
  {
    seq(|p|, i requires 0 <= i < |p| => p[i].0)
  }

  /** No key occurs twice, as in a JavaScript object. */
  ghost predicate Keyed(p: Params)
  {
    forall i, j :: 0 <= i < j < |p| ==> p[i].0 != p[j].0
  }

  /** `params[key]`, or `None` for `undefined`. */
  function Lookup(p: Params, key: string): (r: Option<string>)
    ensures r.None? <==> key !in KeysOf(p)
  {
    if |p| == 0 then None
    else if p[0].0 == key then Some(p[0].1)
    else
      assert KeysOf(p) == [p[0].0] + KeysOf(p[1..]);
      Lookup(p[1..], key)
  }

  /** `params[key] = value`: an existing key keeps its place and takes the
      new value, a new key is appended. */
  function Assign(p: Params, key: string, value: string): (r: Params)
    ensures key !in KeysOf(p) ==> r == p + [(key, value)]
    ensures key in KeysOf(p) ==> KeysOf(r) == KeysOf(p)
  {
    if |p| == 0 then [(key, value)]
    else
      KeysOfCons(p[0], p[1..]);
      if p[0].0 == key then
        KeysOfCons((key, value), p[1..]);
        [(key, value)] + p[1..]
      else
        var rest := Assign(p[1..], key, value);
        KeysOfCons(p[0], rest);
        [p[0]] + rest
  }

  lemma KeysOfCons(x: (string, string), p: Params)
    ensures KeysOf([x] + p) == [x.0] + KeysOf(p)
  {
  }

  /** After `params[key] = value`, `key` reads `value` and every other key
      reads what it read before. */
  lemma {:induction false} AssignLookup(p: Params, key: string, value: string, k: string)
    ensures Lookup(Assign(p, key, value), k) == if k == key then Some(value) else Lookup(p, k)
  {
    if |p| > 0 && p[0].0 != key {
      AssignLookup(p[1..], key, value, k);
    }
  }

  /** Assignment never repeats a key. */
  lemma AssignKeyed(p: Params, key: string, value: string)
    requires Keyed(p)
    ensures Keyed(Assign(p, key, value))
  {
    var r := Assign(p, key, value);
    if key in KeysOf(p) {
      assert KeysOf(r) == KeysOf(p);
    } else {
      assert r == p + [(key, value)];
    }
  }

  /** `encodeURIComponent` and `decodeURIComponent`. */
  datatype Codec = Codec(encode: string -> string, decode: string -> string)

  /** What the round trip needs of the codec on one text: decoding inverts
      encoding, the encoding has no `&`, `=` or `?`, and only the empty text
      encodes to the empty text. */
  predicate Inverts(c: Codec, s: string)
  {
    && c.decode(c.encode(s)) == s
    && '&' !in c.encode(s) && '=' !in c.encode(s) && '?' !in c.encode(s)
    && (c.encode(s) == "" <==> s == "")
  }

  /** `${encodeURIComponent(key)}=${encodeURIComponent(value)}`. */
  function PairText(c: Codec, entry: (string, string)): string
  {
    c.encode(entry.0) + "=" + c.encode(entry.1)
  }

  function PairTexts(c: Codec, p: Params): (r: seq<string>)
    ensures |r| == |p| && forall i :: 0 <= i < |p| ==> r[i] == PairText(c, p[i])
  {
    seq(|p|, i requires 0 <= i < |p| => PairText(c, p[i]))
  }

  /** `buildParamString(params)`: the pairs joined by `&` in entry order. */
  function BuildParamString(c: Codec, p: Params): (r: string)
    ensures p == [] ==> r == ""
    ensures |p| == 1 ==> r == PairText(c, p[0])
    ensures |p| > 1 ==> r == PairText(c, p[0]) + "&" + BuildParamString(c, p[1..])
  {
    var parts := PairTexts(c, p);
    assert |p| > 1 ==> parts[1..] == PairTexts(c, p[1..]);
    Join(parts, "&")
  }

  /** `buildUrl(route, params)`: `#route`, then `?` and the parameters
      unless there are none. */
  function BuildUrl(c: Codec, route: string, p: Params): (r: string)
    ensures BuildParamString(c, p) == "" ==> r == "#" + route
    ensures BuildParamString(c, p) != "" ==> r == "#" + route + "?" + BuildParamString(c, p)
  {
    var s := BuildParamString(c, p);
    "#" + route + (if s != "" then "?" + s else "")
  }

  /** The key and the value of one `key=value` text; a missing value is
      `undefined`, which the source treats like the empty text. */
  function PairParts(pair: string): (r: (string, string))
  {
    var parts := Split(pair, '=');
    (parts[0], if |parts| > 1 then parts[1] else "")
  }

  /** One step of the `forEach`: a pair with a key and a value is decoded
      and assigned, any other pair is skipped. */
  function AddPair(c: Codec, acc: Params, pair: string): (r: Params)
    ensures PairParts(pair).0 == "" || PairParts(pair).1 == "" ==> r == acc
    ensures PairParts(pair).0 != "" && PairParts(pair).1 != "" ==>
      r == Assign(acc, c.decode(PairParts(pair).0), c.decode(PairParts(pair).1))
  {
    var (key, value) := PairParts(pair);
    if key != "" && value != "" then Assign(acc, c.decode(key), c.decode(value)) else acc
  }

  /** The parameters the first pairs build, in order. */
  function PairsParams(c: Codec, pairs: seq<string>): (r: Params)
  {
    if |pairs| == 0 then [] else AddPair(c, PairsParams(c, pairs[..|pairs| - 1]), pairs[|pairs| - 1])
  }

  /** `parseParams(paramString)`: `{}` for a missing or empty text, else the
      `&`-separated pairs added in order. */
  function ParamsOf(c: Codec, paramString: Option<string>): (r: Params)
    ensures paramString.None? || paramString == Some("") ==> r == []
  {
    if paramString.None? || paramString.value == "" then []
    else PairsParams(c, Split(paramString.value, '&'))
  }

  /** The parsed parameters never repeat a key. */
  lemma {:induction false} PairsParamsKeyed(c: Codec, pairs: seq<string>)
    ensures Keyed(PairsParams(c, pairs))
  {
    if |pairs| > 0 {
      PairsParamsKeyed(c, pairs[..|pairs| - 1]);
    }
  }

  /** A later pair with the same decoded key overwrites the earlier value. */
  lemma LaterPairWins(c: Codec, pairs: seq<string>, pair: string)
    requires PairParts(pair).0 != "" && PairParts(pair).1 != ""
    ensures Lookup(PairsParams(c, pairs + [pair]), c.decode(PairParts(pair).0)) == Some(c.decode(PairParts(pair).1))
  {
    assert (pairs + [pair])[..|pairs|] == pairs;
    var key := c.decode(PairParts(pair).0);
    AssignLookup(PairsParams(c, pairs), key, c.decode(PairParts(pair).1), key);
  }

  /** A pair without a key or without a value changes nothing. */
  lemma EmptyPairSkipped(c: Codec, pairs: seq<string>, pair: string)
    requires PairParts(pair).0 == "" || PairParts(pair).1 == ""
    ensures PairsParams(c, pairs + [pair]) == PairsParams(c, pairs)
  {
    assert (pairs + [pair])[..|pairs|] == pairs;
  }

  /** `parseParams` fills `params` in the `forEach` over the pairs. */
  method ParseParams(c: Codec, paramString: Option<string>) returns (params: Params)
    ensures params == ParamsOf(c, paramString)
    ensures Keyed(params)
  {
    params := [];
    if paramString.None? || paramString.value == "" {
      return;
    }
    var pairs := Split(paramString.value, '&');
    var i := 0;
    while i < |pairs|
      invariant 0 <= i <= |pairs|
      invariant params == PairsParams(c, pairs[..i])
    {
      var (key, value) := PairParts(pairs[i]);
      if key != "" && value != "" {
        params := Assign(params, c.decode(key), c.decode(value));
      }
      assert pairs[..i + 1][..i] == pairs[..i];
      i := i + 1;
    }
    assert pairs[..|pairs|] == pairs;
    PairsParamsKeyed(c, pairs);
  }

  /** Parameters the round trip can restore: distinct keys, non-empty keys
      and values, and a codec that inverts on each of them. */
  ghost predicate Restorable(c: Codec, p: Params)
  {
    && Keyed(p)
    && forall i :: 0 <= i < |p| ==>
         p[i].0 != "" && p[i].1 != "" && Inverts(c, p[i].0) && Inverts(c, p[i].1)
  }

  /** One encoded pair splits back into its encoded key and value. */
  lemma PairPartsOfPairText(c: Codec, entry: (string, string))
    requires Inverts(c, entry.0) && Inverts(c, entry.1)
    ensures PairParts(PairText(c, entry)) == (c.encode(entry.0), c.encode(entry.1))
  {
    SplitAtFirstSeparator(c.encode(entry.0), '=', c.encode(entry.1));
    SplitWithoutSeparator(c.encode(entry.1), '=');
    assert PairText(c, entry) == c.encode(entry.0) + ['='] + c.encode(entry.1);
  }

  /** Adding the encoded pairs of `p` one by one rebuilds `p`. */
  lemma {:induction false} PairsParamsOfPairTexts(c: Codec, p: Params)
    requires Restorable(c, p)
    ensures PairsParams(c, PairTexts(c, p)) == p
  {
    if |p| > 0 {
      var q := p[..|p| - 1];
      var last := p[|p| - 1];
      var n := |p| - 1;
      var t := PairTexts(c, p);
      assert Restorable(c, q);
      PairsParamsOfPairTexts(c, q);
      assert t[..n] == PairTexts(c, q);
      assert PairsParams(c, t) == AddPair(c, PairsParams(c, t[..n]), t[n]);
      forall i | 0 <= i < |q| ensures q[i].0 != last.0 {
        assert q[i] == p[i];
      }
      AddPairOfPairText(c, q, last);
      assert q + [last] == p;
    }
  }

  /** The encoded text of a pair with a new key adds that pair at the end. */
  lemma AddPairOfPairText(c: Codec, q: Params, last: (string, string))
    requires Inverts(c, last.0) && Inverts(c, last.1) && last.0 != "" && last.1 != ""
    requires forall i :: 0 <= i < |q| ==> q[i].0 != last.0
    ensures AddPair(c, q, PairText(c, last)) == q + [last]
  {
    PairPartsOfPairText(c, last);
    assert last.0 !in KeysOf(q);
  }

  /** `parseParams(buildParamString(p)) == p` for restorable parameters. */
  lemma ParamStringRoundTrip(c: Codec, p: Params)
    requires Restorable(c, p)
    ensures ParamsOf(c, Some(BuildParamString(c, p))) == p
  {
    var parts := PairTexts(c, p);
    if |p| > 0 {
      forall i | 0 <= i < |parts| ensures '&' !in parts[i] {
        JoinContains([c.encode(p[i].0), c.encode(p[i].1)], "=", '&');
        assert parts[i] == Join([c.encode(p[i].0), c.encode(p[i].1)], "=");
      }
      SplitJoin(parts, '&');
      JoinFirstChar(parts, "&");
      PairsParamsOfPairTexts(c, p);
    }
  }

  // ---------------------------------------------------------------- routes

  /** A route's configuration. */
  datatype RouteConfig = RouteConfig(component: string, title: string, requiresParam: Option<string>)

  /** `this.routes`. */
  function Routes(): map<string, RouteConfig>
  {
    map[
      "cycles" := RouteConfig("cycleOverview", "Production Cycles", None),
      "cage-manager" := RouteConfig("cageManager", "Cage Management", Some("cycleId")),
      "cage-detail" := RouteConfig("cageDetail", "Cage Details", Some("id")),
      "analytics" := RouteConfig("analytics", "Analytics Dashboard", None),
      "settings" := RouteConfig("settings", "Settings", None)
    ]
  }

  /** The fallback route. */
  const Home: string := "cycles"

  /** The route's required parameter, if any, is present and not empty. */
  predicate HasRequired(config: RouteConfig, params: Params)
  {
    config.requiresParam.None? ||
    (Lookup(params, config.requiresParam.value).Some? && Lookup(params, config.requiresParam.value).value != "")
  }

  /** Where `navigate(route, params)` lands: the request when the route is
      one of the table's own and its required parameter is there, else the
      cycles page with no parameters. */
  function Resolve(route: string, params: Params): (r: (string, Params))
    ensures r.0 in Routes()
    ensures route in Routes() && HasRequired(Routes()[route], params) ==> r == (route, params)
    ensures !(route in Routes() && HasRequired(Routes()[route], params)) ==> r == (Home, [])
  {
    if route in Routes() && HasRequired(Routes()[route], params) then (route, params) else (Home, [])
  }

  /** Landing on a route twice lands in the same place. */
  lemma ResolveIdempotent(route: string, params: Params)
    ensures Resolve(Resolve(route, params).0, Resolve(route, params).1) == Resolve(route, params)
  {
  }

  /** Where `loadInitialRoute` lands for the fragment after `#`: the cycles
      page for an empty fragment, else the part before the first `?` with
      the parameters after it. */
  function InitialRoute(c: Codec, hash: string): (r: (string, Params))
    ensures hash == "" ==> r == (Home, [])
    ensures r.0 in Routes()
  {
    if hash == "" then Resolve(Home, [])
    else
      var parts := Split(hash, '?');
      Resolve(parts[0], ParamsOf(c, if |parts| > 1 then Some(parts[1]) else None))
  }

  /** A URL the router builds leads back to the same place. */
  lemma BuiltUrlRoundTrip(c: Codec, route: string, p: Params)
    requires '?' !in route
    requires Restorable(c, p)
    ensures |BuildUrl(c, route, p)| >= 1
    ensures InitialRoute(c, BuildUrl(c, route, p)[1..]) == Resolve(route, p)
  {
    var s := BuildParamString(c, p);
    var hash := BuildUrl(c, route, p)[1..];
    ParamStringRoundTrip(c, p);
    if s == "" {
      assert hash == route;
      SplitWithoutSeparator(route, '?');
      assert p == [];
    } else {
      assert hash == route + ['?'] + s;
      var parts := PairTexts(c, p);
      forall i | 0 <= i < |parts| ensures '?' !in parts[i] {
        JoinContains([c.encode(p[i].0), c.encode(p[i].1)], "=", '?');
        assert parts[i] == Join([c.encode(p[i].0), c.encode(p[i].1)], "=");
      }
      JoinContains(parts, "&", '?');
      SplitAtFirstSeparator(route, '?', s);
      SplitWithoutSeparator(s, '?');
    }
  }

  // ---------------------------------------------------------------- the route lookup as written

  /** The names a plain JavaScript object inherits from `Object.prototype`. */
  const InheritedNames: set<string> := {
    "constructor", "toString", "toLocaleString", "valueOf", "hasOwnProperty", "isPrototypeOf",
    "propertyIsEnumerable", "__proto__", "__defineGetter__", "__defineSetter__",
    "__lookupGetter__", "__lookupSetter__"
  }

  /** What `this.routes[route]` yields. */
  datatype RouteLookup = OwnRoute(config: RouteConfig) | InheritedMember | NoRoute

  function RouteLookupAsWritten(route: string): (r: RouteLookup)
    ensures r.OwnRoute? <==> route in Routes()
    ensures r.InheritedMember? <==> route !in Routes() && route in InheritedNames
  {
    if route in Routes() then OwnRoute(Routes()[route])
    else if route in InheritedNames then InheritedMember
    else NoRoute
  }

  /** `navigate` as written: an inherited member is truthy and has no
      `requiresParam`, so it passes both checks. */
  function ResolveAsWritten(route: string, params: Params): (r: (string, Params))
    ensures route !in Routes() && route in InheritedNames ==> r == (route, params)
    ensures route in Routes() || route !in InheritedNames ==> r == Resolve(route, params)
  {
    match RouteLookupAsWritten(route)
    case OwnRoute(config) => if HasRequired(config, params) then (route, params) else (Home, [])
    case InheritedMember => (route, params)
    case NoRoute => (Home, [])
  }

  /** The fragment `#toString` sets the current route to a name that is not
      a route, where the fallback to the cycles page was intended. */
  lemma InheritedNameSkipsFallback()
    ensures ResolveAsWritten("toString", []) == ("toString", [])
    ensures "toString" !in Routes()
    ensures Resolve("toString", []) == (Home, [])
  {
    assert "toString" in InheritedNames;
  }

  // ---------------------------------------------------------------- the router

  /** The router's state: the current route and parameters, and the URLs
      pushed onto the browser history. */
  class Navigator {
    const codec: Codec
    var currentRoute: Option<string>
    var currentParams: Params
    var history: seq<string>

    constructor (codec: Codec)
      ensures this.codec == codec && currentRoute.None? && currentParams == [] && history == []
    {
      this.codec := codec;
      currentRoute := None;
      currentParams := [];
      history := [];
    }

    ghost predicate Valid()
      reads this
    {
      currentRoute.Some? ==> currentRoute.value in Routes()
    }

    /** `navigate(route, params, updateHistory)`: on an unknown route or a
        missing required parameter it navigates to the cycles page instead. */
    method Navigate(route: string, params: Params, updateHistory: bool)
      modifies this
      decreases if route == Home then 0 else 1
      ensures Valid()
      ensures currentRoute == Some(Resolve(route, params).0) && currentParams == Resolve(route, params).1
      ensures history == old(history) +
        (if updateHistory then [BuildUrl(codec, Resolve(route, params).0, Resolve(route, params).1)] else [])
    {
      if route !in Routes() {
        Navigate(Home, [], updateHistory);
        return;
      }
      var config := Routes()[route];
      if config.requiresParam.Some? {
        var given := Lookup(params, config.requiresParam.value);
        if given.None? || given.value == "" {
          Navigate(Home, [], updateHistory);
          return;
        }
      }
      currentRoute := Some(route);
      currentParams := params;
      if updateHistory {
        history := history + [BuildUrl(codec, route, params)];
      }
    }

    /** `loadInitialRoute()` for the fragment after `#`. */
    method LoadInitialRoute(hash: string)
      modifies this
      ensures Valid()
      ensures currentRoute == Some(InitialRoute(codec, hash).0) && currentParams == InitialRoute(codec, hash).1
      ensures history == old(history)
    {
      if hash != "" {
        var parts := Split(hash, '?');
        var params := ParseParams(codec, if |parts| > 1 then Some(parts[1]) else None);
        Navigate(parts[0], params, false);
      } else {
        Navigate(Home, [], false);
      }
    }

    /** `handlePopState(e)`: the saved state when there is one, else the fragment. */
    method HandlePopState(state: Option<(string, Params)>, hash: string)
      modifies this
      ensures Valid()
      ensures state.Some? ==> currentRoute == Some(Resolve(state.value.0, state.value.1).0)
      ensures state.Some? ==> currentParams == Resolve(state.value.0, state.value.1).1
      ensures state.None? ==> currentRoute == Some(InitialRoute(codec, hash).0)
      ensures state.None? ==> currentParams == InitialRoute(codec, hash).1
      ensures history == old(history)
    {
      if state.Some? {
        Navigate(state.value.0, state.value.1, false);
      } else {
        LoadInitialRoute(hash);
      }
    }
  }
}
