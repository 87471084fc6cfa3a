/** The `LIKE` pattern built for a "contains" name filter, under the meaning section 8.5 of
    ISO/IEC 9075-2 gives a `LIKE` pattern with an escape character. */
module NameFilter {

  const ESCAPE: char := '\\'

  predicate IsSpecial(c: char) { c == ESCAPE || c == '%' || c == '_' }

  // ------------------------------------------------------------------ LIKE

  /** Every escape character is followed by a character it may escape. */
  predicate WellFormed(p: string) {
    p == []
    || (if p[0] == ESCAPE then |p| > 1 && IsSpecial(p[1]) && WellFormed(p[2..]) else WellFormed(p[1..]))
  }

  /** `%` matches any run of characters, `_` any one character, an escaped character itself, and any
      other character itself. */
  predicate Like(s: string, p: string)
    decreases |p|, |s|
  {
    if p == [] then s == []
    else if p[0] == '%' then Like(s, p[1..]) || (s != [] && Like(s[1..], p))
    else if p[0] == ESCAPE then |p| > 1 && s != [] && s[0] == p[1] && Like(s[1..], p[2..])
    else s != [] && (p[0] == '_' || s[0] == p[0]) && Like(s[1..], p[1..])
  }

  // ------------------------------------------------------------------ building the pattern

  /** The text with every special character escaped. */
  function Escaped(f: string): string {
    if f == [] then [] else (if IsSpecial(f[0]) then [ESCAPE, f[0]] else [f[0]]) + Escaped(f[1..])
  }

  lemma {:induction false} EscapedConcat(a: string, b: string)
    ensures Escaped(a + b) == Escaped(a) + Escaped(b)
  {
    if a == [] {
      assert a + b == b;
    } else {
      assert (a + b)[1..] == a[1..] + b;
      EscapedConcat(a[1..], b);
    }
  }

  lemma EscapedNext(f: string, i: nat)
    requires i < |f|
    ensures Escaped(f[..i + 1]) == Escaped(f[..i]) + (if IsSpecial(f[i]) then [ESCAPE, f[i]] else [f[i]])
  {
    EscapedConcat(f[..i], [f[i]]);
    assert [f[i]][1..] == [] && f[..i + 1] == f[..i] + [f[i]];
  }

  method NameFilterPattern(filter: string) returns (pattern: string)
    ensures pattern == ['%'] + Escaped(filter) + ['%']
    ensures WellFormed(pattern)
    ensures forall s: string :: Like(s, pattern) <==> Contains(s, filter)
  {
    pattern := ['%'];
    for i := 0 to |filter|
      invariant pattern == ['%'] + Escaped(filter[..i])
    {
      var ch := filter[i];
      EscapedNext(filter, i);
      if ch == ESCAPE || ch == '%' || ch == '_' {
        pattern := pattern + [ESCAPE];
      }
      pattern := pattern + [ch];
    }
    assert filter[..|filter|] == filter;
    pattern := pattern + ['%'];
    PatternMeansFilter(filter);
  }

  // ------------------------------------------------------------------ what it means

  /** `f` occurs in `s` as it stands. */
  predicate Contains(s: string, f: string) {
    exists k :: 0 <= k <= |s| && f <= s[k..]
  }

  function Pattern(f: string): string { ['%'] + Escaped(f) + ['%'] }

  lemma {:induction false} EscapedIsWellFormed(f: string, rest: string)
    requires WellFormed(rest)
    ensures WellFormed(Escaped(f) + rest)
  {
    if f == [] {
      assert Escaped(f) + rest == rest;
    } else {
      var tail := Escaped(f[1..]) + rest;
      EscapedIsWellFormed(f[1..], rest);
      assert Escaped(f) + rest == (if IsSpecial(f[0]) then [ESCAPE, f[0]] else [f[0]]) + tail;
      assert IsSpecial(f[0]) ==> (Escaped(f) + rest)[2..] == tail;
      assert !IsSpecial(f[0]) ==> (Escaped(f) + rest)[1..] == tail;
    }
  }

  lemma PatternIsWellFormed(f: string)
    ensures WellFormed(Pattern(f))
  {
    assert ['%'][1..] == [];
    EscapedIsWellFormed(f, ['%']);
    assert Pattern(f)[1..] == Escaped(f) + ['%'];
  }

  lemma {:induction false} PercentMatchesAll(s: string)
    ensures Like(s, ['%'])
  {
    assert ['%'][1..] == [];
    if s != [] {
      PercentMatchesAll(s[1..]);
    }
  }

  /** Escaped text followed by `%` matches exactly the strings that begin with the text. */
  lemma {:induction false} EscapedMatchesPrefix(s: string, f: string)
    ensures Like(s, Escaped(f) + ['%']) <==> f <= s
  {
    var p := Escaped(f) + ['%'];
    if f == [] {
      assert p == ['%'];
      PercentMatchesAll(s);
    } else {
      var tail := Escaped(f[1..]) + ['%'];
      assert IsSpecial(f[0]) ==> p[0] == ESCAPE && p[1] == f[0] && p[2..] == tail;
      assert !IsSpecial(f[0]) ==> p[0] == f[0] && p[1..] == tail;
      if s != [] {
        EscapedMatchesPrefix(s[1..], f[1..]);
        assert f <= s <==> f[0] == s[0] && f[1..] <= s[1..];
      }
    }
  }

  /** A leading `%` skips any number of characters. */
  lemma {:induction false} LeadingPercent(s: string, p: string)
    ensures Like(s, ['%'] + p) <==> exists k :: 0 <= k <= |s| && Like(s[k..], p)
  {
    assert (['%'] + p)[1..] == p && s[0..] == s;
    if s != [] {
      LeadingPercent(s[1..], p);
      if k :| 0 <= k <= |s[1..]| && Like(s[1..][k..], p) {
        assert s[1..][k..] == s[k + 1..];
      }
      if k :| 0 < k <= |s| && Like(s[k..], p) {
        assert s[1..][k - 1..] == s[k..];
        assert Like(s[1..][k - 1..], p);
      }
    }
  }

  /** The pattern matches a name exactly when the filter occurs in it as a contiguous substring,
      whatever wildcards or escapes the filter itself contains. */
  lemma PatternMeansContains(s: string, f: string)
    ensures Like(s, Pattern(f)) <==> Contains(s, f)
  {
    var p := Escaped(f) + ['%'];
    assert Pattern(f) == ['%'] + p;
    LeadingPercent(s, p);
    forall k | 0 <= k <= |s| ensures Like(s[k..], p) <==> f <= s[k..] {
      EscapedMatchesPrefix(s[k..], f);
    }
  }

  lemma PatternMeansFilter(f: string)
    ensures WellFormed(Pattern(f)) && forall s: string :: Like(s, Pattern(f)) <==> Contains(s, f)
  {
    PatternIsWellFormed(f);
    forall s: string ensures Like(s, Pattern(f)) <==> Contains(s, f) {
      PatternMeansContains(s, f);
    }
  }

  /** Different filters give different patterns: nothing a user types is confused with anything else. */
  lemma PatternIsInjective(f: string, g: string)
    requires Pattern(f) == Pattern(g)
    ensures f == g
  {
    assert f[0..] == f && g[0..] == g;
    PatternMeansContains(f, f);
    PatternMeansContains(g, g);
    PatternMeansContains(f, g);
    PatternMeansContains(g, f);
    assert f <= f[0..] && g <= g[0..];
    assert |f| == |g| by {
      var k :| 0 <= k <= |f| && g <= f[k..];
      var j :| 0 <= j <= |g| && f <= g[j..];
    }
    var k :| 0 <= k <= |f| && g <= f[k..];
    assert k == 0;
  }
}
