/** Configuration parsing: method tokens, the `path:M1,M2; path2:M3` string and
    the conversions from parsed sets and maps into the allowed-path table
    (src/config.rs). */
module Config {
  import opened Results
  import opened Strings
  import opened Errors
  import opened Http
  import Webhook

  /** A method token of the configuration; `ALL` stands for every method. */
  datatype AllowedMethod = ALL | GET | POST | PUT | PATCH | DELETE

  function Name(m: AllowedMethod): (r: string)
    ensures |r| >= 3 && forall i :: 0 <= i < |r| ==> IsUpperAsciiLetter(r[i])
  {
    match m
    case ALL => "ALL"
    case GET => "GET"
    case POST => "POST"
    case PUT => "PUT"
    case PATCH => "PATCH"
    case DELETE => "DELETE"
  }

  /** Distinct variants have distinct names. */
  lemma NameInjective(m: AllowedMethod, m': AllowedMethod)
    requires Name(m) == Name(m')
    ensures m == m'
  {
  }

  /** The token names some variant once upper-cased. */
  ghost predicate IsMethodToken(token: string) {
    exists m :: Name(m) == Upper(token)
  }

  /** Parses one method token, ignoring case; an unknown token is an error that
      quotes the token as given. */
  function ParseMethod(value: string): (r: Result<AllowedMethod, Error>)
    ensures r.Ok? <==> IsMethodToken(value)
    ensures r.Ok? ==> Name(r.value) == Upper(value)
    ensures r.Err? ==> r.error == Custom("Unknown method: " + value)
  {
    var upper := Upper(value);
    if upper == "ALL" then assert Name(ALL) == upper; Ok(ALL)
    else if upper == "GET" then assert Name(GET) == upper; Ok(GET)
    else if upper == "POST" then assert Name(POST) == upper; Ok(POST)
    else if upper == "PUT" then assert Name(PUT) == upper; Ok(PUT)
    else if upper == "PATCH" then assert Name(PATCH) == upper; Ok(PATCH)
    else if upper == "DELETE" then assert Name(DELETE) == upper; Ok(DELETE)
    else Err(Custom("Unknown method: " + value))
  }

  /** Parsing a variant's name gives the variant back. */
  lemma ParseName(m: AllowedMethod)
    ensures ParseMethod(Name(m)) == Ok(m)
  {
    UpperOfUpperAscii(Name(m));
  }

  /** Any spelling of a name that differs only in ASCII letter case parses to
      the same variant. */
  lemma ParseIgnoresCase(token: string, m: AllowedMethod)
    requires SameIgnoringAsciiCase(token, Name(m))
    ensures ParseMethod(token) == Ok(m)
  {
    UpperIgnoresAsciiCase(token, Name(m));
  }

  /** `Method::try_from`: ALL has no HTTP method, every other variant becomes
      the standard method of the same name. */
  function ToHttpMethod(value: AllowedMethod): (r: Result<Method, Error>)
    ensures r.Err? <==> value == ALL
    ensures r.Ok? ==> MethodName(r.value) == Name(value) && !r.value.Extension?
  {
    if value == ALL then Err(Custom("Can't convert ALL to actix_web::http::Method"))
    else
      match MethodFromStr(Name(value))
      case Some(m) => Ok(m)
      case None => Err(Custom("Can't convert method to actix_web::http::Method: invalid HTTP method | " + Name(value)))
  }

  /** A variant converts to the standard method carrying its name. */
  lemma ConvertsToNamed(a: AllowedMethod, m: Method)
    requires a != ALL && !m.Extension? && MethodName(m) == Name(a)
    ensures ToHttpMethod(a) == Ok(m)
  {
    var converted := ToHttpMethod(a).value;
    assert MethodName(converted) == MethodName(m);
  }

  /** The permissions a configured method set stands for: `all` records
      whether ALL was present, `methods` holds every other member as an HTTP
      method (kept even when ALL is present). */
  function Resolve(value: set<AllowedMethod>): Webhook.AllowedPath {
    Webhook.AllowedPath(ALL in value, set a | a in value && a != ALL :: ToHttpMethod(a).value)
  }

  /** Converts a configured set one member at a time: ALL sets the flag,
      every other member is converted and collected. */
  method ToAllowedPath(value: set<AllowedMethod>) returns (r: Result<Webhook.AllowedPath, Error>)
    ensures r.Ok?
    ensures r.value.all <==> ALL in value
    ensures forall m :: m in r.value.methods <==>
              exists a :: a in value && a != ALL && ToHttpMethod(a) == Ok(m)
    ensures r.value == Resolve(value)
  {
    var filtered: set<Method> := {};
    var all := false;
    var rest := value;
    while rest != {}
      invariant rest <= value
      invariant all <==> ALL in value - rest
      invariant forall m :: m in filtered <==>
                  exists a :: a in value - rest && a != ALL && ToHttpMethod(a) == Ok(m)
      decreases rest
    {
      var a :| a in rest;
      rest := rest - {a};
      if a == ALL {
        all := true;
      } else {
        // The conversion fails only for ALL, so the conversion's `?` cannot fail here.
        filtered := filtered + {ToHttpMethod(a).value};
      }
    }
    r := Ok(Webhook.AllowedPath(all, filtered));
  }

  /** The image of a configured set is as large as the set without ALL:
      distinct variants become distinct methods. */
  lemma {:induction false} ResolveCardinality(value: set<AllowedMethod>)
    ensures |Resolve(value).methods| == |value - {ALL}|
    decreases |value|
  {
    if value - {ALL} == {} {
      assert Resolve(value).methods == {};
    } else {
      var a :| a in value && a != ALL;
      ResolveCardinality(value - {a});
      ResolveGrowsByOne(value, a);
    }
  }

  /** Taking one non-ALL member out of a configured set takes exactly one
      method out of its resolution. */
  lemma ResolveGrowsByOne(value: set<AllowedMethod>, a: AllowedMethod)
    requires a in value && a != ALL
    ensures |Resolve(value).methods| == |Resolve(value - {a}).methods| + 1
    ensures |value - {ALL}| == |(value - {a}) - {ALL}| + 1
  {
    ResolveAddsOne(value, a);
    CardinalityAddsOne(Resolve(value - {a}).methods, ToHttpMethod(a).value);
    assert value - {ALL} == ((value - {a}) - {ALL}) + {a};
    CardinalityAddsOne((value - {a}) - {ALL}, a);
  }

  /** Adding a new member grows a set by one. */
  lemma CardinalityAddsOne<T>(s: set<T>, x: T)
    requires x !in s
    ensures |s + {x}| == |s| + 1
  {
  }

  lemma ResolveAddsOne(value: set<AllowedMethod>, a: AllowedMethod)
    requires a in value && a != ALL
    ensures Resolve(value).methods == Resolve(value - {a}).methods + {ToHttpMethod(a).value}
    ensures ToHttpMethod(a).value !in Resolve(value - {a}).methods
  {
    var h := ToHttpMethod(a).value;
    if h in Resolve(value - {a}).methods {
      var b :| b in value - {a} && b != ALL && ToHttpMethod(b).value == h;
      NameInjective(a, b);
    }
  }

  /** A configured set permits a method exactly when it holds ALL or holds the
      variant of the same name. */
  lemma ResolvePermits(value: set<AllowedMethod>, requested: Method)
    ensures Resolve(value).IsAllowed(requested) <==>
              ALL in value || exists a :: a in value && a != ALL && ToHttpMethod(a) == Ok(requested)
  {
    if exists a :: a in value && a != ALL && ToHttpMethod(a) == Ok(requested) {
      var a :| a in value && a != ALL && ToHttpMethod(a) == Ok(requested);
      assert requested in Resolve(value).methods;
    }
  }

  /** Converts every configured path's method set, then builds the table. */
  method ToAllowedPaths(value: map<string, set<AllowedMethod>>, engine: Webhook.RegexEngine)
    returns (r: Result<Webhook.AllowedPaths, Error>)
    ensures r.Ok? <==> forall k :: k in value ==> engine.compiles(Webhook.Anchor(k))
    ensures r.Err? ==> r.error == Regex
    ensures r.Ok? ==> r.value.Valid()
    ensures r.Ok? ==> r.value.allowedMethods.Keys == set k | k in value :: Webhook.Anchor(k)
    ensures r.Ok? ==> forall K :: K in r.value.allowedMethods ==>
              exists k :: k in value && Webhook.Anchor(k) == K && r.value.allowedMethods[K] == Resolve(value[k])
  {
    var converted: map<string, Webhook.AllowedPath> := map[];
    var rest := value.Keys;
    while rest != {}
      invariant rest <= value.Keys
      invariant converted.Keys == value.Keys - rest
      invariant forall k :: k in converted ==> converted[k] == Resolve(value[k])
      decreases rest
    {
      var path :| path in rest;
      var allowed := ToAllowedPath(value[path]);
      converted := converted[path := allowed.value];
      rest := rest - {path};
    }
    r := Webhook.New(converted, engine);
  }

  ghost predicate AllMethodTokens(tokens: seq<string>) {
    forall i :: 0 <= i < |tokens| ==> IsMethodToken(tokens[i])
  }

  /** `tokens[i]` is the first token that names no method. */
  ghost predicate FirstUnknownAt(tokens: seq<string>, i: int) {
    && 0 <= i < |tokens|
    && !IsMethodToken(tokens[i])
    && AllMethodTokens(tokens[..i])
  }

  /** `methods` are exactly the variants the tokens name. */
  ghost predicate NamedBy(methods: set<AllowedMethod>, tokens: seq<string>) {
    forall m :: m in methods <==> exists i :: 0 <= i < |tokens| && Name(m) == Upper(tokens[i])
  }

  /** The methods part of one entry, split on `,`: each token is upper-cased
      and parsed; the first unknown token fails the whole list. */
  function ParseMethods(tokens: seq<string>): (r: Result<set<AllowedMethod>, Error>)
    ensures r.Ok? <==> AllMethodTokens(tokens)
    ensures r.Ok? ==> NamedBy(r.value, tokens)
    ensures r.Err? ==> exists i :: FirstUnknownAt(tokens, i) && r.error == Custom("Unknown method: " + Upper(tokens[i]))
  {
    if |tokens| == 0 then Ok({})
    else
      UpperIdempotent(tokens[0]);
      TokensCons(tokens);
      match ParseMethod(Upper(tokens[0]))
      case Err(e) =>
        assert FirstUnknownAt(tokens, 0);
        Err(e)
      case Ok(m) =>
        match ParseMethods(tokens[1..])
        case Err(e) =>
          assert exists i :: FirstUnknownAt(tokens, i) && e == Custom("Unknown method: " + Upper(tokens[i])) by {
            var i :| FirstUnknownAt(tokens[1..], i) && e == Custom("Unknown method: " + Upper(tokens[1..][i]));
            assert FirstUnknownAt(tokens, i + 1);
          }
          Err(e)
        case Ok(rest) =>
          NamedByCons(tokens, m, rest);
          Ok({m} + rest)
  }

  lemma TokensCons(tokens: seq<string>)
    requires |tokens| > 0
    ensures AllMethodTokens(tokens) <==> IsMethodToken(tokens[0]) && AllMethodTokens(tokens[1..])
    ensures forall i :: FirstUnknownAt(tokens[1..], i) && IsMethodToken(tokens[0]) ==> FirstUnknownAt(tokens, i + 1)
    ensures !IsMethodToken(tokens[0]) ==> FirstUnknownAt(tokens, 0)
  {
    var tail := tokens[1..];
    if AllMethodTokens(tokens) {
      forall i | 0 <= i < |tail|
        ensures IsMethodToken(tail[i])
      {
        assert tail[i] == tokens[i + 1];
      }
    }
    if IsMethodToken(tokens[0]) && AllMethodTokens(tail) {
      forall i | 0 <= i < |tokens|
        ensures IsMethodToken(tokens[i])
      {
        if i > 0 {
          assert tokens[i] == tail[i - 1];
        }
      }
    }
    forall i | FirstUnknownAt(tail, i) && IsMethodToken(tokens[0])
      ensures FirstUnknownAt(tokens, i + 1)
    {
      assert tokens[i + 1] == tail[i];
      PrefixCons(tokens, i);
    }
    assert tokens[..0] == [];
  }

  /** A known first token ahead of a known run of the tail gives a known prefix. */
  lemma PrefixCons(tokens: seq<string>, i: nat)
    requires i < |tokens| - 1
    requires IsMethodToken(tokens[0]) && AllMethodTokens(tokens[1..][..i])
    ensures AllMethodTokens(tokens[..i + 1])
  {
    assert tokens[..i + 1] == [tokens[0]] + tokens[1..][..i];
  }

  /** The variant the first token names, with the variants the remaining
      tokens name, are the variants all the tokens name. */
  lemma NamedByCons(tokens: seq<string>, m: AllowedMethod, rest: set<AllowedMethod>)
    requires |tokens| > 0 && Name(m) == Upper(tokens[0]) && NamedBy(rest, tokens[1..])
    ensures NamedBy({m} + rest, tokens)
  {
    forall m' | m' in {m} + rest
      ensures exists i :: 0 <= i < |tokens| && Name(m') == Upper(tokens[i])
    {
      if m' != m {
        var i :| 0 <= i < |tokens[1..]| && Name(m') == Upper(tokens[1..][i]);
        assert Name(m') == Upper(tokens[i + 1]);
      }
    }
    forall m' | exists i :: 0 <= i < |tokens| && Name(m') == Upper(tokens[i])
      ensures m' in {m} + rest
    {
      var i :| 0 <= i < |tokens| && Name(m') == Upper(tokens[i]);
      if i == 0 {
        NameInjective(m, m');
      } else {
        assert tokens[1..][i - 1] == tokens[i];
      }
    }
  }

  /** One `path:methods` entry, split on `:`: the path is the first piece, the
      methods the second (later pieces are ignored); without a `:` the entry
      is rejected. */
  function ParseEntry(entry: string): (r: Result<(string, set<AllowedMethod>), Error>)
    ensures !Contains(entry, ":") ==> r == Err(Custom("Methods are missing"))
    ensures r.Ok? ==> StartsWith(entry, r.value.0 + ":") && !Contains(r.value.0, ":")
    ensures Contains(entry, ":") ==>
              var tokens := Split(Split(entry, ":")[1], ",");
              && (r.Ok? <==> AllMethodTokens(tokens))
              && (r.Ok? ==> NamedBy(r.value.1, tokens))
              && (r.Err? ==> exists i :: FirstUnknownAt(tokens, i) && r.error == Custom("Unknown method: " + Upper(tokens[i])))
  {
    var pieces := Split(entry, ":");
    if |pieces| < 2 then Err(Custom("Methods are missing"))
    else
      var methods :- ParseMethods(Split(pieces[1], ","));
      JoinCons(pieces[0], pieces[1..], ":");
      assert pieces == [pieces[0]] + pieces[1..];
      Ok((pieces[0], methods))
  }

  /** The names of a sequence of variants, in order. */
  function Names(ms: seq<AllowedMethod>): (r: seq<string>)
    ensures |r| == |ms| && forall i :: 0 <= i < |ms| ==> r[i] == Name(ms[i])
  {
    if |ms| == 0 then [] else [Name(ms[0])] + Names(ms[1..])
  }

  /** The text of an entry configuring `path` for the variants `ms`. */
  function FormatEntry(path: string, ms: seq<AllowedMethod>): string {
    path + ":" + Join(Names(ms), ",")
  }

  /** The variants' own names parse back to exactly those variants. */
  lemma {:induction false} ParseMethodsNames(ms: seq<AllowedMethod>)
    ensures ParseMethods(Names(ms)) == Ok(set m | m in ms)
    decreases |ms|
  {
    if |ms| > 0 {
      var tokens := Names(ms);
      assert tokens[1..] == Names(ms[1..]);
      ParseUpperName(ms[0]);
      ParseMethodsNames(ms[1..]);
      var rest := set m | m in ms[1..];
      ParseMethodsCons(tokens, ms[0], rest);
      ElementsCons(ms);
    } else {
      assert Names(ms) == [];
      assert (set m | m in ms) == {};
    }
  }

  /** The elements of a non-empty sequence: its head and those of its tail. */
  lemma ElementsCons<T>(s: seq<T>)
    requires |s| > 0
    ensures (set x | x in s) == {s[0]} + (set x | x in s[1..])
  {
    forall x | x in s
      ensures x == s[0] || x in s[1..]
    {
      var i :| 0 <= i < |s| && s[i] == x;
      if i > 0 {
        assert s[1..][i - 1] == x;
      }
    }
  }

  /** A name upper-cased is itself, and parses to its variant. */
  lemma ParseUpperName(m: AllowedMethod)
    ensures ParseMethod(Upper(Name(m))) == Ok(m)
  {
    UpperOfUpperAscii(Name(m));
    ParseName(m);
  }

  /** A known first token followed by tokens that parse adds its variant. */
  lemma ParseMethodsCons(tokens: seq<string>, m: AllowedMethod, rest: set<AllowedMethod>)
    requires |tokens| > 0
    requires ParseMethod(Upper(tokens[0])) == Ok(m)
    requires ParseMethods(tokens[1..]) == Ok(rest)
    ensures ParseMethods(tokens) == Ok({m} + rest)
  {
  }

  /** No name contains `c` unless `c` is an upper-case ASCII letter. */
  lemma NamesAvoid(ms: seq<AllowedMethod>, c: char)
    requires !IsUpperAsciiLetter(c)
    ensures forall k :: 0 <= k < |ms| ==> c !in Names(ms)[k]
  {
  }

  /** An entry written out from a path without `:` and a non-empty list of
      variants parses back to that path and the set of those variants. */
  lemma EntryRoundTrip(path: string, ms: seq<AllowedMethod>)
    requires ':' !in path && |ms| > 0
    ensures ParseEntry(FormatEntry(path, ms)) == Ok((path, set m | m in ms))
  {
    var text := Join(Names(ms), ",");
    NamesAvoid(ms, ':');
    NamesAvoid(ms, ',');
    JoinAvoids(Names(ms), ",", ':');
    JoinCons(path, [text], ":");
    SplitJoinLastCharFree([path, text], ":");
    SplitJoinLastCharFree(Names(ms), ",");
    ParseMethodsNames(ms);
  }

  /** Every item parses. */
  ghost predicate AllParse<T>(items: seq<string>, parse: string -> Result<T, Error>) {
    forall i :: 0 <= i < |items| ==> parse(items[i]).Ok?
  }

  /** `items[i]` is the first item that does not parse. */
  ghost predicate FirstFailureAt<T>(items: seq<string>, parse: string -> Result<T, Error>, i: int) {
    && 0 <= i < |items|
    && parse(items[i]).Err?
    && AllParse(items[..i], parse)
  }

  /** Parses items in order and collects the results; the first failure is
      the result of the whole (collecting an iterator of results). */
  function CollectResults<T>(items: seq<string>, parse: string -> Result<T, Error>): (r: Result<seq<T>, Error>)
    ensures r.Ok? <==> AllParse(items, parse)
    ensures r.Ok? ==> |r.value| == |items|
    ensures r.Ok? ==> forall i :: 0 <= i < |items| ==> parse(items[i]) == Ok(r.value[i])
    ensures r.Err? ==> exists i :: FirstFailureAt(items, parse, i) && parse(items[i]) == Err(r.error)
  {
    if |items| == 0 then Ok([])
    else
      ItemsCons(items, parse);
      match parse(items[0])
      case Err(e) =>
        assert FirstFailureAt(items, parse, 0);
        Err(e)
      case Ok(first) =>
        match CollectResults(items[1..], parse)
        case Err(e) =>
          assert exists i :: FirstFailureAt(items, parse, i) && parse(items[i]) == Err(e) by {
            var i :| FirstFailureAt(items[1..], parse, i) && parse(items[1..][i]) == Err(e);
            assert FirstFailureAt(items, parse, i + 1);
          }
          Err(e)
        case Ok(rest) =>
          Ok([first] + rest)
  }

  lemma ItemsCons<T>(items: seq<string>, parse: string -> Result<T, Error>)
    requires |items| > 0
    ensures AllParse(items, parse) <==> parse(items[0]).Ok? && AllParse(items[1..], parse)
    ensures forall i :: FirstFailureAt(items[1..], parse, i) && parse(items[0]).Ok? ==> FirstFailureAt(items, parse, i + 1)
    ensures forall i :: 0 <= i < |items[1..]| ==> items[1..][i] == items[i + 1]
  {
    forall i | FirstFailureAt(items[1..], parse, i) && parse(items[0]).Ok?
      ensures FirstFailureAt(items, parse, i + 1)
    {
      assert items[..i + 1] == [items[0]] + items[1..][..i];
    }
  }

  /** `pairs[i]` is the last pair configuring its path. */
  ghost predicate LastFor(pairs: seq<(string, set<AllowedMethod>)>, i: int) {
    0 <= i < |pairs| && forall j :: i < j < |pairs| ==> pairs[j].0 != pairs[i].0
  }

  /** Some pair configures path `p`. */
  ghost predicate Mentions(pairs: seq<(string, set<AllowedMethod>)>, p: string) {
    exists i :: 0 <= i < |pairs| && pairs[i].0 == p
  }

  /** `configured` holds exactly the paths of `pairs`, each mapped to the
      methods of the last pair naming it. */
  ghost predicate Records(configured: map<string, set<AllowedMethod>>, pairs: seq<(string, set<AllowedMethod>)>) {
    && (forall p :: p in configured <==> Mentions(pairs, p))
    && (forall i :: LastFor(pairs, i) ==> pairs[i].0 in configured && configured[pairs[i].0] == pairs[i].1)
  }

  /** Inserts the pairs into a map in order, so a later path overrides an
      earlier one. */
  function InsertAll(pairs: seq<(string, set<AllowedMethod>)>): (r: map<string, set<AllowedMethod>>)
    ensures Records(r, pairs)
  {
    if |pairs| == 0 then map[]
    else
      var previous := InsertAll(pairs[..|pairs| - 1]);
      InsertLast(pairs, previous);
      previous[pairs[|pairs| - 1].0 := pairs[|pairs| - 1].1]
  }

  /** Inserting the last pair on top of a map that records the others records
      them all. */
  lemma InsertLast(pairs: seq<(string, set<AllowedMethod>)>, previous: map<string, set<AllowedMethod>>)
    requires |pairs| > 0
    requires Records(previous, pairs[..|pairs| - 1])
    ensures Records(previous[pairs[|pairs| - 1].0 := pairs[|pairs| - 1].1], pairs)
  {
    var front, last := pairs[..|pairs| - 1], pairs[|pairs| - 1];
    var r := previous[last.0 := last.1];
    forall p
      ensures p in r <==> Mentions(pairs, p)
    {
      InsertLastKey(pairs, previous, p);
    }
    forall i | LastFor(pairs, i)
      ensures pairs[i].0 in r && r[pairs[i].0] == pairs[i].1
    {
      if i < |front| {
        assert front[i] == pairs[i];
        assert LastFor(front, i);
      }
    }
  }

  lemma InsertLastKey(pairs: seq<(string, set<AllowedMethod>)>, previous: map<string, set<AllowedMethod>>, p: string)
    requires |pairs| > 0
    requires forall p :: p in previous <==> Mentions(pairs[..|pairs| - 1], p)
    ensures p in previous[pairs[|pairs| - 1].0 := pairs[|pairs| - 1].1] <==> Mentions(pairs, p)
  {
    var front := pairs[..|pairs| - 1];
    if p in previous {
      var i :| 0 <= i < |front| && front[i].0 == p;
      assert pairs[i].0 == p;
    }
    if Mentions(pairs, p) {
      var i :| 0 <= i < |pairs| && pairs[i].0 == p;
      if i < |front| {
        assert front[i].0 == p;
      }
    }
  }

  /** `pairs` are what the entries parse to, and `configured` maps every path
      among them to the methods of the last pair naming it. */
  ghost predicate ConfiguredBy(
    configured: map<string, set<AllowedMethod>>,
    entries: seq<string>,
    pairs: seq<(string, set<AllowedMethod>)>)
  {
    && |pairs| == |entries|
    && (forall i :: 0 <= i < |pairs| ==> ParseEntry(entries[i]) == Ok(pairs[i]))
    && Records(configured, pairs)
  }

  lemma CollectedPairsConfigure(entries: seq<string>, pairs: seq<(string, set<AllowedMethod>)>)
    requires CollectResults(entries, ParseEntry) == Ok(pairs)
    ensures ConfiguredBy(InsertAll(pairs), entries, pairs)
  {
    assert forall i :: 0 <= i < |pairs| ==> ParseEntry(entries[i]) == Ok(pairs[i]);
  }

  /** The `WEBHOOK.PATHS` setting: entries separated by `"; "`, parsed in
      order, the first bad entry failing the whole setting, and a later entry
      for the same path overriding an earlier one. */
  function DeserializePaths(setting: string): (r: Result<map<string, set<AllowedMethod>>, Error>)
    ensures r.Ok? <==> AllParse(Split(setting, "; "), ParseEntry)
    ensures r.Err? ==> exists i :: FirstFailureAt(Split(setting, "; "), ParseEntry, i)
                                   && ParseEntry(Split(setting, "; ")[i]) == Err(r.error)
    ensures r.Ok? ==> exists pairs :: ConfiguredBy(r.value, Split(setting, "; "), pairs)
  {
    var entries := Split(setting, "; ");
    match CollectResults(entries, ParseEntry)
    case Err(e) => Err(e)
    case Ok(pairs) =>
      CollectedPairsConfigure(entries, pairs);
      Ok(InsertAll(pairs))
  }

  /** The setting text for a list of entries, each a path and its variants. */
  function FormatSetting(entries: seq<(string, seq<AllowedMethod>)>): string {
    Join(seq(|entries|, i requires 0 <= i < |entries| => FormatEntry(entries[i].0, entries[i].1)), "; ")
  }

  /** What each written entry stands for: its path and the set of its variants. */
  function Meant(entries: seq<(string, seq<AllowedMethod>)>): seq<(string, set<AllowedMethod>)> {
    seq(|entries|, i requires 0 <= i < |entries| => (entries[i].0, set m | m in entries[i].1))
  }

  /** A path fit to be written into the setting: no `:` and no space. */
  predicate PlainPath(path: string) {
    ':' !in path && ' ' !in path
  }

  /** A written entry contains no space. */
  lemma FormatEntryHasNoSpace(path: string, ms: seq<AllowedMethod>)
    requires PlainPath(path)
    ensures ' ' !in FormatEntry(path, ms)
  {
    NamesAvoid(ms, ' ');
    JoinAvoids(Names(ms), ",", ' ');
  }

  /** A setting written out from non-empty entries over plain paths reads
      back as those entries, a later entry for a path overriding an earlier one. */
  lemma SettingRoundTrip(entries: seq<(string, seq<AllowedMethod>)>)
    requires |entries| > 0
    requires forall i :: 0 <= i < |entries| ==> PlainPath(entries[i].0) && |entries[i].1| > 0
    ensures DeserializePaths(FormatSetting(entries)).Ok?
    ensures Records(DeserializePaths(FormatSetting(entries)).value, Meant(entries))
  {
    var written := seq(|entries|, i requires 0 <= i < |entries| => FormatEntry(entries[i].0, entries[i].1));
    var pairs := Meant(entries);
    forall k | 0 <= k < |written|
      ensures ' ' !in written[k] && ParseEntry(written[k]) == Ok(pairs[k])
    {
      FormatEntryHasNoSpace(entries[k].0, entries[k].1);
      EntryRoundTrip(entries[k].0, entries[k].1);
    }
    SplitJoinLastCharFree(written, "; ");
    var collected := CollectResults(written, ParseEntry);
    assert collected.Ok?;
    assert collected.value == pairs;
    CollectedPairsConfigure(written, pairs);
  }
}
