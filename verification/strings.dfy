/** String helpers with the semantics of Rust's `str` methods used by the core:
    `starts_with`, `ends_with`, `split` on a non-empty pattern and `to_uppercase`. */
module Strings {
  import opened Results

  predicate StartsWith(s: string, prefix: string) {
    |prefix| <= |s| && s[..|prefix|] == prefix
  }

  predicate EndsWith(s: string, suffix: string) {
    |suffix| <= |s| && s[|s| - |suffix|..] == suffix
  }

  /** `pat` occurs in `s` starting at index `i`. */
  predicate OccursAt(s: string, pat: string, i: int) {
    0 <= i && i + |pat| <= |s| && s[i..i + |pat|] == pat
  }

  ghost predicate Contains(s: string, pat: string) {
    exists i :: OccursAt(s, pat, i)
  }

  /** The leftmost occurrence of `pat` in `s` at or after `from`. */
  function FindFrom(s: string, pat: string, from: nat): (r: Option<nat>)
    ensures r.Some? ==> from <= r.value && OccursAt(s, pat, r.value)
    ensures r.Some? ==> forall k :: from <= k < r.value ==> !OccursAt(s, pat, k)
    ensures r.None? ==> forall k :: from <= k ==> !OccursAt(s, pat, k)
    decreases |s| - from
  {
    if from + |pat| > |s| then None
    else if s[from..from + |pat|] == pat then Some(from)
    else FindFrom(s, pat, from + 1)
  }

  /** Glues pieces back together with `sep` between neighbours. */
  function Join(parts: seq<string>, sep: string): string {
    if |parts| == 0 then ""
    else if |parts| == 1 then parts[0]
    else parts[0] + sep + Join(parts[1..], sep)
  }

  lemma NoOccurrenceBefore(s: string, pat: string, i: nat)
    requires |pat| > 0 && i <= |s|
    requires forall k :: 0 <= k < i ==> !OccursAt(s, pat, k)
    ensures !Contains(s[..i], pat)
  {
    forall k | OccursAt(s[..i], pat, k)
      ensures false
    {
      assert s[..i][k..k + |pat|] == s[k..k + |pat|];
      assert OccursAt(s, pat, k);
    }
  }

  lemma JoinCons(first: string, rest: seq<string>, sep: string)
    requires |rest| >= 1
    ensures Join([first] + rest, sep) == first + sep + Join(rest, sep)
  {
    assert ([first] + rest)[1..] == rest;
  }

  /** A character that is neither in `sep` nor in any piece is not in their join. */
  lemma {:induction false} JoinAvoids(parts: seq<string>, sep: string, c: char)
    requires c !in sep
    requires forall k :: 0 <= k < |parts| ==> c !in parts[k]
    ensures c !in Join(parts, sep)
    decreases |parts|
  {
    if |parts| > 1 {
      JoinAvoids(parts[1..], sep, c);
    }
  }

  /** Rust's `str::split` with a non-empty pattern: the pieces between the
      leftmost non-overlapping occurrences of `sep`, always at least one. */
  function Split(s: string, sep: string): (parts: seq<string>)
    requires |sep| > 0
    ensures |parts| >= 1
    ensures Join(parts, sep) == s
    ensures forall k :: 0 <= k < |parts| ==> !Contains(parts[k], sep)
    ensures |parts| == 1 <==> !Contains(s, sep)
    decreases |s|
  {
    match FindFrom(s, sep, 0)
    case None =>
      assert s[..|s|] == s;
      NoOccurrenceBefore(s, sep, |s|);
      [s]
    case Some(i) =>
      SplitAtFirst(s, sep, i);
      var rest := Split(s[i + |sep|..], sep);
      JoinCons(s[..i], rest, sep);
      [s[..i]] + rest
  }

  /** The facts the recursive case of `Split` needs about the first occurrence. */
  lemma SplitAtFirst(s: string, sep: string, i: nat)
    requires |sep| > 0 && OccursAt(s, sep, i)
    requires forall k :: 0 <= k < i ==> !OccursAt(s, sep, k)
    ensures !Contains(s[..i], sep)
    ensures Contains(s, sep)
    ensures s == s[..i] + sep + s[i + |sep|..]
  {
    NoOccurrenceBefore(s, sep, i);
    assert s[i..i + |sep|] == sep;
    assert s == s[..i] + s[i..i + |sep|] + s[i + |sep|..];
  }

  /** `pat` cannot occur in a string that lacks one of its characters. */
  lemma MissingCharNoOccurrence(s: string, pat: string, m: nat)
    requires m < |pat|
    requires forall i :: 0 <= i < |s| ==> s[i] != pat[m]
    ensures !Contains(s, pat)
  {
    forall i
      ensures !OccursAt(s, pat, i)
    {
      if 0 <= i && i + |pat| <= |s| {
        assert s[i..i + |pat|][m] == s[i + m] != pat[m];
      }
    }
  }

  /** The first occurrence of `sep` in `p + sep + t` is the one after `p`,
      provided no occurrence starts inside `p`. */
  lemma FirstOccurrenceAfter(p: string, sep: string, t: string)
    requires |sep| > 0
    requires !Contains(p + sep[..|sep| - 1], sep)
    ensures FindFrom(p + sep + t, sep, 0) == Some(|p|)
  {
    var s := p + sep + t;
    assert s[|p|..|p| + |sep|] == sep;
    forall k | 0 <= k < |p|
      ensures !OccursAt(s, sep, k)
    {
      var q := p + sep[..|sep| - 1];
      assert !OccursAt(q, sep, k);
      assert s[k..k + |sep|] == q[k..k + |sep|];
    }
    assert OccursAt(s, sep, |p|);
    var r := FindFrom(s, sep, 0);
    assert r.Some? && r.value <= |p|;
  }

  /** Splitting the join of pieces gives the pieces back, when no occurrence
      of `sep` starts inside a piece (which `sep`'s own prefix could complete). */
  lemma {:induction false} SplitJoin(parts: seq<string>, sep: string)
    requires |sep| > 0 && |parts| >= 1
    requires forall k :: 0 <= k < |parts| ==> !Contains(parts[k] + sep[..|sep| - 1], sep)
    ensures Split(Join(parts, sep), sep) == parts
    decreases |parts|
  {
    if |parts| == 1 {
      var p := parts[0];
      assert !Contains(p, sep) by {
        var q := p + sep[..|sep| - 1];
        forall i
          ensures !OccursAt(p, sep, i)
        {
          assert !OccursAt(q, sep, i);
          if 0 <= i && i + |sep| <= |p| {
            assert q[i..i + |sep|] == p[i..i + |sep|];
          }
        }
      }
      var r := Split(p, sep);
      assert |r| == 1;
      assert Join(r, sep) == r[0];
    } else {
      var p := parts[0];
      var t := Join(parts[1..], sep);
      JoinCons(p, parts[1..], sep);
      assert parts == [p] + parts[1..];
      FirstOccurrenceAfter(p, sep, t);
      var s := p + sep + t;
      assert s[..|p|] == p;
      assert s[|p| + |sep|..] == t;
      SplitJoin(parts[1..], sep);
    }
  }

  /** The usual way `SplitJoin` applies: the last character of `sep` occurs
      neither earlier in `sep` nor in any piece. */
  lemma SplitJoinLastCharFree(parts: seq<string>, sep: string)
    requires |sep| > 0 && |parts| >= 1
    requires forall i :: 0 <= i < |sep| - 1 ==> sep[i] != sep[|sep| - 1]
    requires forall k, i :: 0 <= k < |parts| && 0 <= i < |parts[k]| ==> parts[k][i] != sep[|sep| - 1]
    ensures Split(Join(parts, sep), sep) == parts
  {
    forall k | 0 <= k < |parts|
      ensures !Contains(parts[k] + sep[..|sep| - 1], sep)
    {
      MissingCharNoOccurrence(parts[k] + sep[..|sep| - 1], sep, |sep| - 1);
    }
    SplitJoin(parts, sep);
  }

  /** The upper case of one character under Unicode's full case mapping, for
      every character whose upper case is ASCII: the ASCII letters, dotless i,
      long s, sharp s and the Latin ligatures U+FB00..U+FB06. Every other
      character is returned unchanged. */
  function UpperChar(c: char): string {
    if 'a' <= c <= 'z' then [(c as int - 32) as char]
    else if c == '\U{0131}' then "I"
    else if c == '\U{017F}' then "S"
    else if c == '\U{00DF}' then "SS"
    else if c == '\U{FB00}' then "FF"
    else if c == '\U{FB01}' then "FI"
    else if c == '\U{FB02}' then "FL"
    else if c == '\U{FB03}' then "FFI"
    else if c == '\U{FB04}' then "FFL"
    else if c == '\U{FB05}' then "ST"
    else if c == '\U{FB06}' then "ST"
    else [c]
  }

  /** `str::to_uppercase`, character by character. */
  function Upper(s: string): string {
    if |s| == 0 then "" else UpperChar(s[0]) + Upper(s[1..])
  }

  predicate IsUpperAsciiLetter(c: char) {
    'A' <= c <= 'Z'
  }

  /** ASCII-only case folding of one character, to upper case. */
  function AsciiFold(c: char): char {
    if 'a' <= c <= 'z' then (c as int - 32) as char else c
  }

  /** `t` and `u` spell the same word up to the case of ASCII letters. */
  ghost predicate SameIgnoringAsciiCase(t: string, u: string) {
    |t| == |u| && forall i :: 0 <= i < |t| ==> AsciiFold(t[i]) == AsciiFold(u[i])
  }

  lemma {:induction false} UpperAppend(a: string, b: string)
    ensures Upper(a + b) == Upper(a) + Upper(b)
    decreases |a|
  {
    if |a| == 0 {
      assert a + b == b;
    } else {
      assert (a + b)[0] == a[0];
      assert (a + b)[1..] == a[1..] + b;
      UpperAppend(a[1..], b);
    }
  }

  /** A string of upper-case ASCII letters is its own upper case. */
  lemma {:induction false} UpperOfUpperAscii(s: string)
    requires forall i :: 0 <= i < |s| ==> IsUpperAsciiLetter(s[i])
    ensures Upper(s) == s
    decreases |s|
  {
    if |s| > 0 {
      UpperOfUpperAscii(s[1..]);
      assert s == [s[0]] + s[1..];
    }
  }

  lemma UpperCharIsFixed(c: char)
    ensures Upper(UpperChar(c)) == UpperChar(c)
  {
    var u := UpperChar(c);
    if 'a' <= c <= 'z' || c in {'\U{0131}', '\U{017F}', '\U{00DF}', '\U{FB00}', '\U{FB01}',
                                '\U{FB02}', '\U{FB03}', '\U{FB04}', '\U{FB05}', '\U{FB06}'} {
      UpperOfUpperAscii(u);
    } else {
      assert u == [c];
    }
  }

  /** Upper-casing twice is upper-casing once. */
  lemma {:induction false} UpperIdempotent(s: string)
    ensures Upper(Upper(s)) == Upper(s)
    decreases |s|
  {
    if |s| > 0 {
      UpperAppend(UpperChar(s[0]), Upper(s[1..]));
      UpperCharIsFixed(s[0]);
      UpperIdempotent(s[1..]);
    }
  }

  /** A word that equals an upper-case ASCII word up to ASCII case has that
      word as its upper case. */
  lemma {:induction false} UpperIgnoresAsciiCase(t: string, u: string)
    requires forall i :: 0 <= i < |u| ==> IsUpperAsciiLetter(u[i])
    requires SameIgnoringAsciiCase(t, u)
    ensures Upper(t) == u
    decreases |t|
  {
    if |t| > 0 {
      assert AsciiFold(t[0]) == AsciiFold(u[0]) == u[0];
      assert UpperChar(t[0]) == [u[0]];
      assert SameIgnoringAsciiCase(t[1..], u[1..]) by {
        forall i | 0 <= i < |t[1..]|
          ensures AsciiFold(t[1..][i]) == AsciiFold(u[1..][i])
        {
          assert t[1..][i] == t[i + 1];
          assert u[1..][i] == u[i + 1];
        }
      }
      UpperIgnoresAsciiCase(t[1..], u[1..]);
      assert u == [u[0]] + u[1..];
    }
  }
}
