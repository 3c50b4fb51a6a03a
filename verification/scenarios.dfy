/** Worked cases from the repository's own unit tests, stated against the
    model. The exact-path tables use the literal pattern engine; tables with
    regex operators would need a regex engine and are not restated here. */
module Scenarios {
  import opened Results
  import opened Http
  import opened Strings
  import Errors
  import Webhook
  import Config
  import LiteralPatterns

  /** A full method set resolves to `all` plus the five concrete methods. */
  method FullSetScenario() {
    var value := {Config.ALL, Config.GET, Config.POST, Config.PUT, Config.PATCH, Config.DELETE};
    var full := Config.ToAllowedPath(value);
    FullSetResolves(value, full.value);
  }

  /** The full set keeps the flag and all five concrete methods. */
  lemma FullSetResolves(value: set<Config.AllowedMethod>, resolved: Webhook.AllowedPath)
    requires value == {Config.ALL, Config.GET, Config.POST, Config.PUT, Config.PATCH, Config.DELETE}
    requires resolved == Config.Resolve(value)
    ensures resolved.all && |resolved.methods| == 5
  {
    Config.ResolveCardinality(value);
    var s1 := {Config.GET};
    var s2 := s1 + {Config.POST};
    var s3 := s2 + {Config.PUT};
    var s4 := s3 + {Config.PATCH};
    Config.CardinalityAddsOne(s1, Config.POST);
    Config.CardinalityAddsOne(s2, Config.PUT);
    Config.CardinalityAddsOne(s3, Config.PATCH);
    Config.CardinalityAddsOne(s4, Config.DELETE);
    assert value - {Config.ALL} == s4 + {Config.DELETE};
  }

  /** ALL alone resolves to the flag and no concrete method. */
  method OnlyAllScenario() {
    var onlyAll := Config.ToAllowedPath({Config.ALL});
    Config.ResolveCardinality({Config.ALL});
    assert onlyAll.value.all && |onlyAll.value.methods| == 0;
  }

  /** GET alone resolves to GET and nothing else. */
  method OnlyGetScenario() {
    var onlyGet := Config.ToAllowedPath({Config.GET});
    Config.ConvertsToNamed(Config.GET, Get);
    assert !onlyGet.value.all && onlyGet.value.methods == {Get};
  }

  /** Method names parse in either case. */
  method MethodNameScenario() {
    Config.ParseIgnoresCase("get", Config.GET);
    assert Config.ParseMethod("get") == Ok(Config.GET);
  }

  /** A near-miss is rejected with its own text. */
  method NearMissScenario() {
    assert Upper("GETT") == "GETT";
    forall m: Config.AllowedMethod
      ensures Config.Name(m) != "GETT"
    {
    }
    assert !Config.IsMethodToken("GETT");
    var r := Config.ParseMethod("GETT");
    assert r.Err?;
    assert r.error == Errors.Custom("Unknown method: " + "GETT");
    assert r.error == Errors.Custom("Unknown method: GETT");
  }

  /** A pattern without a leading `^` or trailing `$` is anchored by wrapping
      it, and the wrapped pattern's literal text is the pattern itself. */
  lemma PlainLiteral(k: string)
    requires |k| > 0 && k[0] != '^' && k[|k| - 1] != '$'
    ensures Webhook.Anchor(k) == "^" + k + "$"
    ensures LiteralPatterns.Literal("^" + k + "$") == k
  {
    LiteralPatterns.AnchorKeepsLiteral(k);
    assert k[..1][0] == k[0];
    assert k[|k| - 1..][0] == k[|k| - 1];
    assert !StartsWith(k, "^") && !EndsWith(k, "$");
    assert ("^" + k)[1..] == k;
    assert ("^" + k)[|"^" + k| - 1] == k[|k| - 1];
  }

  /** A table of two exact paths, each for every method, lists exactly those
      two paths, for any method. */
  lemma TwoExactPaths(table: Webhook.AllowedPaths, A: string, B: string, a: string, b: string, path: string, requested: Method)
    requires table.allowedMethods.Keys == {A, B}
    requires LiteralPatterns.Literal(A) == a && LiteralPatterns.Literal(B) == b
    requires forall K :: K in table.allowedMethods ==> table.allowedMethods[K].all
    ensures LiteralPatterns.Lists(table, path, requested) <==> path == a || path == b
  {
    if path == a {
      assert A in table.allowedMethods && table.allowedMethods[A].IsAllowed(requested);
    } else if path == b {
      assert B in table.allowedMethods && table.allowedMethods[B].IsAllowed(requested);
    } else {
      forall K | K in table.allowedMethods
        ensures path != LiteralPatterns.Literal(K)
      {
        assert K in {A, B};
        if K != A {
          assert K == B;
        }
      }
    }
  }

  /** The keys `TryFrom<HashMap>` yields for a configuration of two plain paths. */
  lemma TwoPathKeys(a: string, b: string, configured: map<string, set<Config.AllowedMethod>>, table: Webhook.AllowedPaths)
    requires |a| > 0 && a[0] != '^' && a[|a| - 1] != '$'
    requires |b| > 0 && b[0] != '^' && b[|b| - 1] != '$'
    requires configured.Keys == {a, b}
    requires table.allowedMethods.Keys == set k | k in configured :: Webhook.Anchor(k)
    ensures table.allowedMethods.Keys == {"^" + a + "$", "^" + b + "$"}
    ensures LiteralPatterns.Literal("^" + a + "$") == a && LiteralPatterns.Literal("^" + b + "$") == b
  {
    assert table.allowedMethods.Keys == {Webhook.Anchor(a), Webhook.Anchor(b)};
    PlainLiteral(a);
    PlainLiteral(b);
  }

  /** Every entry configured for ALL permits every method. */
  lemma AllEverywhere(configured: map<string, set<Config.AllowedMethod>>, table: Webhook.AllowedPaths)
    requires forall k :: k in configured ==> configured[k] == {Config.ALL}
    requires forall K :: K in table.allowedMethods ==>
               exists k :: k in configured && Webhook.Anchor(k) == K && table.allowedMethods[K] == Config.Resolve(configured[k])
    ensures forall K :: K in table.allowedMethods ==> table.allowedMethods[K].all
  {
  }

  /** Under the literal engine, a valid table of two exact paths for every
      method allows exactly those two paths. */
  lemma TwoExactPathsAllowed(table: Webhook.AllowedPaths, A: string, B: string, a: string, b: string, path: string, requested: Method)
    requires table.Valid()
    requires table.allowedMethods.Keys == {A, B}
    requires LiteralPatterns.Literal(A) == a && LiteralPatterns.Literal(B) == b
    requires forall K :: K in table.allowedMethods ==> table.allowedMethods[K].all
    ensures table.IsAllowed(LiteralPatterns.Engine, path, requested) <==> path == a || path == b
  {
    LiteralPatterns.LiteralTableAllowsListedPathsOnly(table, path, requested);
    TwoExactPaths(table, A, B, a, b, path, requested);
  }

  /** Two plain paths (no `^` or `$` of their own), each configured for
      ALL, build a table that under the literal engine admits exactly those
      two paths, for every method. */
  method TwoPlainPaths(a: string, b: string) returns (table: Webhook.AllowedPaths)
    requires |a| > 0 && a[0] != '^' && a[|a| - 1] != '$'
    requires |b| > 0 && b[0] != '^' && b[|b| - 1] != '$'
    ensures forall path, requested :: table.IsAllowed(LiteralPatterns.Engine, path, requested) <==> path == a || path == b
  {
    var configured := map[a := {Config.ALL}, b := {Config.ALL}];
    var r := Config.ToAllowedPaths(configured, LiteralPatterns.Engine);
    assert r.Ok?;
    table := r.value;
    PlainPathsTable(a, b, configured, table);
  }

  /** The table built from two plain paths configured for ALL. */
  lemma PlainPathsTable(a: string, b: string, configured: map<string, set<Config.AllowedMethod>>, table: Webhook.AllowedPaths)
    requires |a| > 0 && a[0] != '^' && a[|a| - 1] != '$'
    requires |b| > 0 && b[0] != '^' && b[|b| - 1] != '$'
    requires configured.Keys == {a, b}
    requires forall k :: k in configured ==> configured[k] == {Config.ALL}
    requires table.Valid()
    requires table.allowedMethods.Keys == set k | k in configured :: Webhook.Anchor(k)
    requires forall K :: K in table.allowedMethods ==>
               exists k :: k in configured && Webhook.Anchor(k) == K && table.allowedMethods[K] == Config.Resolve(configured[k])
    ensures forall path, requested :: table.IsAllowed(LiteralPatterns.Engine, path, requested) <==> path == a || path == b
  {
    var A, B := "^" + a + "$", "^" + b + "$";
    TwoPathKeys(a, b, configured, table);
    AllEverywhere(configured, table);
    forall path, requested
      ensures table.IsAllowed(LiteralPatterns.Engine, path, requested) <==> path == a || path == b
    {
      TwoExactPathsAllowed(table, A, B, a, b, path, requested);
    }
  }

  /** The unit tests' exact-path table admits `/test/` and `/data/123` and
      nothing else: not `/`, not `/api`, not the longer `/test/access`. */
  method ExactPathsScenario(requested: Method) {
    var table := TwoPlainPaths("/test/", "/data/123");
    assert table.IsAllowed(LiteralPatterns.Engine, "/test/", requested);
    assert !table.IsAllowed(LiteralPatterns.Engine, "/test/access", requested) by {
      assert |"/test/access"| != |"/test/"| && "/test/access"[1] != "/data/123"[1];
    }
  }
}
