/** The allowed-path table and the per-process forwarding data (src/data/webhook.rs). */
module Webhook {
  import opened Results
  import opened Strings
  import opened Errors
  import Http

  /** What one route pattern permits: every method when `all` is set, otherwise
      the listed methods. */
  datatype AllowedPath = AllowedPath(all: bool, methods: set<Http.Method>) {
    predicate IsAllowed(requested: Http.Method) {
      all || requested in methods
    }
  }

  /** No extension method in `methods` has a token longer than the result. */
  ghost function LongestToken(methods: set<Http.Method>): (n: nat)
    ensures forall m :: m in methods && m.Extension? ==> |m.token| <= n
    decreases methods
  {
    if methods == {} then 0
    else
      var m :| m in methods;
      var rest := LongestToken(methods - {m});
      if m.Extension? && |m.token| > rest then |m.token| else rest
  }

  /** `all` is not a shorthand for some list: an entry permits every method
      exactly when its `all` flag is set, because a finite list always misses
      some extension method. */
  lemma AllMeansEveryMethod(entry: AllowedPath)
    ensures entry.all <==> forall m :: entry.IsAllowed(m)
  {
    if !entry.all {
      var token := seq(LongestToken(entry.methods) + 1, _ => 'X');
      assert !entry.IsAllowed(Http.Extension(token));
    }
  }

  /** The regular-expression collaborator: whether a pattern compiles, and
      whether a compiled pattern matches somewhere in a text (an unanchored
      search, as a regex set reports its matches). */
  datatype RegexEngine = RegexEngine(compiles: string -> bool, isMatch: (string, string) -> bool)

  /** A pattern that is anchored at both ends. */
  predicate IsAnchored(pattern: string) {
    StartsWith(pattern, "^") && EndsWith(pattern, "$")
  }

  /** Prefixes `^` unless the pattern already starts with one, then suffixes `$`
      unless it already ends with one. */
  function Anchor(pattern: string): (r: string)
    ensures IsAnchored(r)
    ensures r == pattern <==> IsAnchored(pattern)
    ensures |pattern| <= |r| <= |pattern| + 2
  {
    var started := if StartsWith(pattern, "^") then pattern else "^" + pattern;
    if EndsWith(started, "$") then started else started + "$"
  }

  /** Anchoring adds at most one `^` and one `$`: a pattern that does not
      start with `^^` (end with `$$`) does not afterwards either. */
  lemma AnchorNeverDoubles(pattern: string)
    ensures !StartsWith(pattern, "^^") ==> !StartsWith(Anchor(pattern), "^^")
    ensures !EndsWith(pattern, "$$") ==> !EndsWith(Anchor(pattern), "$$")
  {
    var started := if StartsWith(pattern, "^") then pattern else "^" + pattern;
    AnchorKeepsSingleAnchors(pattern, started, Anchor(pattern));
  }

  lemma AnchorKeepsSingleAnchors(pattern: string, started: string, r: string)
    requires started == if StartsWith(pattern, "^") then pattern else "^" + pattern
    requires r == if EndsWith(started, "$") then started else started + "$"
    ensures !StartsWith(pattern, "^^") ==> !StartsWith(r, "^^")
    ensures !EndsWith(pattern, "$$") ==> !EndsWith(r, "$$")
  {
    assert |started| >= 1 && started[0] == '^';
    assert |started| >= 2 ==> started[1] == (if StartsWith(pattern, "^") then pattern[1] else pattern[0]);
    assert |r| >= 2 ==> r[0] == '^' && r[1] == (if |started| >= 2 then started[1] else '$');
    if |pattern| > 0 {
      assert started[|started| - 1] == pattern[|pattern| - 1];
      assert |started| >= 2 ==> started[|started| - 2] == (if |pattern| >= 2 then pattern[|pattern| - 2] else '^');
    }
    assert |r| >= 2 ==> r[|r| - 2] == (if EndsWith(started, "$") then started[|started| - 2] else started[|started| - 1]);
  }

  /** Anchoring an anchored pattern changes nothing. */
  lemma AnchorIdempotent(pattern: string)
    ensures Anchor(Anchor(pattern)) == Anchor(pattern)
  {
  }

  /** Rewrites every key of the table to its anchored form. Keys whose anchored
      forms coincide (`/x` and `^/x$`) collapse into one entry, and which of
      their values survives depends on the map's iteration order; the contract
      says only that it is one of them. */
  method EscapeRegexes(paths: map<string, AllowedPath>) returns (escaped: map<string, AllowedPath>)
    ensures escaped.Keys == set k | k in paths :: Anchor(k)
    ensures forall K :: K in escaped ==>
              exists k :: k in paths && Anchor(k) == K && escaped[K] == paths[k]
  {
    escaped := map[];
    var rest := paths.Keys;
    while rest != {}
      invariant rest <= paths.Keys
      invariant escaped.Keys == set k | k in paths && k !in rest :: Anchor(k)
      invariant forall K :: K in escaped ==>
                  exists k :: k in paths && Anchor(k) == K && escaped[K] == paths[k]
      decreases rest
    {
      var k :| k in rest;
      escaped := escaped[Anchor(k) := paths[k]];
      rest := rest - {k};
    }
  }

  /** Two keys of `paths` that anchor to the same pattern are the same key. */
  ghost predicate AnchorsDistinct(paths: map<string, AllowedPath>) {
    forall k, k' :: k in paths && k' in paths && Anchor(k) == Anchor(k') ==> k == k'
  }

  /** Without collisions, anchoring carries every value over unchanged. */
  lemma EscapedValuesCarryOver(paths: map<string, AllowedPath>, escaped: map<string, AllowedPath>, k: string)
    requires AnchorsDistinct(paths)
    requires forall K :: K in escaped ==>
               exists k :: k in paths && Anchor(k) == K && escaped[K] == paths[k]
    requires k in paths && Anchor(k) in escaped
    ensures escaped[Anchor(k)] == paths[k]
  {
  }

  /** The keys of a map, in whatever order the map yields them. */
  method Enumerate<V>(m: map<string, V>) returns (keys: seq<string>)
    ensures forall k :: k in keys <==> k in m
  {
    keys := [];
    var rest := m.Keys;
    while rest != {}
      invariant rest <= m.Keys
      invariant forall k :: k in keys <==> k in m && k !in rest
      decreases rest
    {
      var k :| k in rest;
      keys := keys + [k];
      rest := rest - {k};
    }
  }

  /** The indices, from `from` on and in increasing order, of the patterns that
      match `path`. */
  function MatchIndices(engine: RegexEngine, patterns: seq<string>, path: string, from: nat): (r: seq<nat>)
    requires from <= |patterns|
    ensures forall j :: j in r <==> from <= j < |patterns| && engine.isMatch(patterns[j], path)
    decreases |patterns| - from
  {
    if from == |patterns| then []
    else
      (if engine.isMatch(patterns[from], path) then [from] else [])
      + MatchIndices(engine, patterns, path, from + 1)
  }

  /** The compiled pattern set together with each pattern's permissions. */
  datatype AllowedPaths = AllowedPaths(patterns: seq<string>, allowedMethods: map<string, AllowedPath>) {

    /** Every compiled pattern has permissions, every permission entry was
        compiled, and every pattern is anchored. */
    ghost predicate Valid() {
      && (forall i :: 0 <= i < |patterns| ==> patterns[i] in allowedMethods)
      && (forall K :: K in allowedMethods ==> K in patterns)
      && (forall K :: K in allowedMethods ==> IsAnchored(K))
    }

    /** Union semantics over the table: some pattern that matches `path`
        permits `requested`. */
    ghost predicate Grants(engine: RegexEngine, path: string, requested: Http.Method) {
      exists K :: K in allowedMethods && engine.isMatch(K, path) && allowedMethods[K].IsAllowed(requested)
    }

    /** Runs every pattern against the path, looks up the permissions of each
        match and asks whether any of them permits the method. */
    function IsAllowed(engine: RegexEngine, path: string, requested: Http.Method): (r: bool)
      ensures r <==> exists i :: 0 <= i < |patterns| && engine.isMatch(patterns[i], path)
                       && patterns[i] in allowedMethods && allowedMethods[patterns[i]].IsAllowed(requested)
    {
      var matched := MatchIndices(engine, patterns, path, 0);
      exists j | j in matched ::
        patterns[j] in allowedMethods && allowedMethods[patterns[j]].IsAllowed(requested)
    }
  }

  /** Anchors the keys and compiles them into one pattern set; fails with a
      regex error when some anchored key does not compile. */
  method New(allowedMethods: map<string, AllowedPath>, engine: RegexEngine) returns (r: Result<AllowedPaths, Error>)
    ensures r.Ok? <==> forall k :: k in allowedMethods ==> engine.compiles(Anchor(k))
    ensures r.Err? ==> r.error == Regex
    ensures r.Ok? ==> r.value.Valid()
    ensures r.Ok? ==> r.value.allowedMethods.Keys == set k | k in allowedMethods :: Anchor(k)
    ensures r.Ok? ==> forall K :: K in r.value.allowedMethods ==>
              exists k :: k in allowedMethods && Anchor(k) == K && r.value.allowedMethods[K] == allowedMethods[k]
  {
    var escaped := EscapeRegexes(allowedMethods);
    var patterns := Enumerate(escaped);
    if forall i | 0 <= i < |patterns| :: engine.compiles(patterns[i]) {
      forall k | k in allowedMethods
        ensures engine.compiles(Anchor(k))
      {
        assert Anchor(k) in escaped;
        var i :| 0 <= i < |patterns| && patterns[i] == Anchor(k);
      }
      r := Ok(AllowedPaths(patterns, escaped));
    } else {
      var i :| 0 <= i < |patterns| && !engine.compiles(patterns[i]);
      assert patterns[i] in escaped;
      var k :| k in allowedMethods && Anchor(k) == patterns[i];
      r := Err(Regex);
    }
  }

  /** A path is allowed exactly when some pattern that matches it permits the method. */
  lemma UnionSemantics(table: AllowedPaths, engine: RegexEngine, path: string, requested: Http.Method)
    requires table.Valid()
    ensures table.IsAllowed(engine, path, requested) <==> table.Grants(engine, path, requested)
  {
    if table.Grants(engine, path, requested) {
      var K :| K in table.allowedMethods && engine.isMatch(K, path) && table.allowedMethods[K].IsAllowed(requested);
      var i :| 0 <= i < |table.patterns| && table.patterns[i] == K;
    }
  }

  /** Adding patterns, or widening what a pattern permits, never revokes a permission. */
  lemma MorePatternsNeverRevoke(small: AllowedPaths, large: AllowedPaths, engine: RegexEngine, path: string, requested: Http.Method)
    requires small.Valid() && large.Valid()
    requires forall K :: K in small.allowedMethods ==> K in large.allowedMethods
    requires forall K, m :: K in small.allowedMethods && small.allowedMethods[K].IsAllowed(m) ==>
               large.allowedMethods[K].IsAllowed(m)
    requires small.IsAllowed(engine, path, requested)
    ensures large.IsAllowed(engine, path, requested)
  {
    UnionSemantics(small, engine, path, requested);
    var K :| K in small.allowedMethods && engine.isMatch(K, path) && small.allowedMethods[K].IsAllowed(requested);
    assert large.Grants(engine, path, requested);
    UnionSemantics(large, engine, path, requested);
  }

  /** A table without entries allows nothing, whatever the engine. */
  lemma EmptyTableAllowsNothing(table: AllowedPaths, engine: RegexEngine, path: string, requested: Http.Method)
    requires table.Valid() && table.allowedMethods == map[]
    ensures !table.IsAllowed(engine, path, requested)
  {
  }

  /** A secret whose raw text is reachable only through `exposeSecret`,
      modelled as the bytes of that text. */
  datatype SecretString = SecretString(exposeSecret: Http.Bytes)

  /** The data every forwarded request shares: the upstream base URL, the
      allowed-path table and the two credentials as header values. */
  datatype WebHookData = WebHookData(
    targetHost: Http.Url,
    allowedPaths: AllowedPaths,
    accessId: Http.Bytes,
    accessSecret: Http.Bytes)
  {
    /** Joins the request path onto the base URL with the URL collaborator. */
    function GetTargetUrl(path: string, join: (Http.Url, string) -> Result<Http.Url, string>): (r: Result<Http.Url, Error>)
      ensures r.Ok? <==> join(targetHost, path).Ok?
      ensures r.Ok? ==> r.value == join(targetHost, path).value
      ensures r.Err? ==> r.error.Custom? && r.error.message == "Failed to join URL: " + join(targetHost, path).error
    {
      match join(targetHost, path)
      case Ok(url) => Ok(url)
      case Err(e) => Err(Custom("Failed to join URL: " + e))
    }

    function IsAllowedPath(engine: RegexEngine, path: string, requested: Http.Method): (r: bool)
      ensures allowedPaths.Valid() ==> (r <==> allowedPaths.Grants(engine, path, requested))
    {
      assert allowedPaths.Valid() ==>
          (allowedPaths.IsAllowed(engine, path, requested) <==> allowedPaths.Grants(engine, path, requested)) by {
        if allowedPaths.Valid() {
          UnionSemantics(allowedPaths, engine, path, requested);
        }
      }
      allowedPaths.IsAllowed(engine, path, requested)
    }
  }

  /** Converts both secrets to header values, the id first; either failing
      aborts construction with its own message. */
  function NewWebHookData(
    targetHost: Http.Url,
    allowedPaths: AllowedPaths,
    accessId: SecretString,
    accessSecret: SecretString,
    isValidValue: Http.Bytes -> bool): (r: Result<WebHookData, Error>)
    ensures r.Ok? <==> isValidValue(accessId.exposeSecret) && isValidValue(accessSecret.exposeSecret)
    ensures !isValidValue(accessId.exposeSecret) ==>
              r == Err(Custom("Failed to map access id to header value"))
    ensures isValidValue(accessId.exposeSecret) && !isValidValue(accessSecret.exposeSecret) ==>
              r == Err(Custom("Failed to map access secret to header value"))
    ensures r.Ok? ==> r.value.accessId == accessId.exposeSecret && r.value.accessSecret == accessSecret.exposeSecret
    ensures r.Ok? ==> r.value.targetHost == targetHost && r.value.allowedPaths == allowedPaths
  {
    var id :- HeaderValueFrom(accessId, isValidValue, "Failed to map access id to header value");
    var secret :- HeaderValueFrom(accessSecret, isValidValue, "Failed to map access secret to header value");
    Ok(WebHookData(targetHost, allowedPaths, id, secret))
  }

  /** `HeaderValue::from_str` on the exposed secret, failing with `message`. */
  function HeaderValueFrom(secret: SecretString, isValidValue: Http.Bytes -> bool, message: string): Result<Http.Bytes, Error> {
    if isValidValue(secret.exposeSecret) then Ok(secret.exposeSecret) else Err(Custom(message))
  }
}
