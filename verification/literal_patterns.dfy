/** A concrete pattern language for the regular-expression collaborator: a
    pattern is an optional `^`, a literal text and an optional `$`, matched by
    search as a regex set does. It is enough to state the exact-path cases of
    the allowed-path table; patterns with regex operators (`\d*`, `|`) are not
    given their regex meaning here. */
module LiteralPatterns {
  import opened Strings
  import Webhook
  import Http

  function StripStart(pattern: string): string {
    if StartsWith(pattern, "^") then pattern[1..] else pattern
  }

  /** The literal text of a pattern: without its leading `^` and trailing `$`. */
  function Literal(pattern: string): string {
    var rest := StripStart(pattern);
    if EndsWith(rest, "$") then rest[..|rest| - 1] else rest
  }

  /** `text` contains `literal` somewhere. */
  predicate Occurs(text: string, literal: string) {
    exists i | 0 <= i <= |text| :: StartsWith(text[i..], literal)
  }

  /** Search semantics: anchored at both ends the literal must be the whole
      text, at one end a prefix or suffix, otherwise anywhere inside. */
  predicate LiteralMatch(pattern: string, text: string) {
    var literal := Literal(pattern);
    var atStart := StartsWith(pattern, "^");
    var atEnd := EndsWith(StripStart(pattern), "$");
    if atStart && atEnd then text == literal
    else if atStart then StartsWith(text, literal)
    else if atEnd then EndsWith(text, literal)
    else Occurs(text, literal)
  }

  predicate AlwaysCompiles(pattern: string) {
    true
  }

  const Engine: Webhook.RegexEngine := Webhook.RegexEngine(AlwaysCompiles, LiteralMatch)

  /** An anchored pattern matches exactly its literal text. */
  lemma AnchoredMatchesExactly(pattern: string, text: string)
    requires Webhook.IsAnchored(pattern)
    ensures LiteralMatch(pattern, text) <==> text == Literal(pattern)
  {
    assert pattern[0] == pattern[..1][0] == '^';
    assert pattern[|pattern| - 1] == pattern[|pattern| - 1..][0] == '$';
    var rest := pattern[1..];
    assert rest[|rest| - 1] == pattern[|pattern| - 1];
    assert rest[|rest| - 1..] == "$";
  }

  /** Anchoring keeps a pattern's literal text. */
  lemma AnchorKeepsLiteral(pattern: string)
    ensures Literal(Webhook.Anchor(pattern)) == Literal(pattern)
  {
    var anchored := Webhook.Anchor(pattern);
    var started := if StartsWith(pattern, "^") then pattern else "^" + pattern;
    assert StripStart(started) == StripStart(pattern) by {
      if !StartsWith(pattern, "^") {
        assert started[1..] == pattern;
      }
    }
    var rest := StripStart(pattern);
    if EndsWith(started, "$") {
      assert anchored == started;
    } else {
      assert anchored == started + "$";
      assert StripStart(anchored) == rest + "$" by {
        if StartsWith(pattern, "^") {
          assert (started + "$")[1..] == started[1..] + "$";
        } else {
          assert (started + "$")[1..] == pattern + "$";
        }
      }
      assert (rest + "$")[..|rest|] == rest;
      assert !EndsWith(rest, "$") by {
        if |rest| > 0 {
          assert rest[|rest| - 1] == started[|started| - 1];
        }
      }
    }
  }

  /** Once anchored, a configured pattern admits exactly its literal text. */
  lemma AnchoredPatternAdmitsOnlyItsLiteral(pattern: string, text: string)
    ensures LiteralMatch(Webhook.Anchor(pattern), text) <==> text == Literal(pattern)
  {
    AnchoredMatchesExactly(Webhook.Anchor(pattern), text);
    AnchorKeepsLiteral(pattern);
  }

  /** Some pattern of the table has `path` as its literal text and permits the method. */
  ghost predicate Lists(table: Webhook.AllowedPaths, path: string, requested: Http.Method) {
    exists K :: K in table.allowedMethods && path == Literal(K) && table.allowedMethods[K].IsAllowed(requested)
  }

  /** Under the literal engine a table allows a path exactly when one of its
      patterns has that path as its literal text and permits the method. */
  lemma LiteralTableAllowsListedPathsOnly(table: Webhook.AllowedPaths, path: string, requested: Http.Method)
    requires table.Valid()
    ensures table.IsAllowed(Engine, path, requested) <==> Lists(table, path, requested)
  {
    Webhook.UnionSemantics(table, Engine, path, requested);
    forall K | K in table.allowedMethods
      ensures LiteralMatch(K, path) <==> path == Literal(K)
    {
      AnchoredMatchesExactly(K, path);
    }
  }

  /** Why anchoring is needed: the bare pattern `/test/` is found inside
      `/d/test/d`, its anchored form is not. */
  lemma AnchoringStopsPartialMatches()
    ensures LiteralMatch("/test/", "/d/test/d")
    ensures !LiteralMatch(Webhook.Anchor("/test/"), "/d/test/d")
  {
    assert "/test/"[..1][0] == '/' && "/test/"[5..][0] == '/';
    assert StartsWith("/d/test/d"[2..], "/test/");
    AnchoredPatternAdmitsOnlyItsLiteral("/test/", "/d/test/d");
  }
}
