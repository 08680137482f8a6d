/**
  Frida-style method queries: the glob matcher and the `class!method/flags` parser
  (src/method_query.rs).  Strings are byte sequences, one `char` per byte.
*/
module MethodQuery {
  import opened Text
  import opened Wrappers

  // ---------------------------------------------------------------------------
  // What a glob means

  /** The declarative meaning: `*` stands for any run of bytes, `?` for exactly one byte. */
  predicate Matches(p: string, v: string)
    decreases |p| + |v|
  {
    if p == "" then v == ""
    else if p[0] == '*' then Matches(p[1..], v) || (v != "" && Matches(p, v[1..]))
    else v != "" && (p[0] == '?' || p[0] == v[0]) && Matches(p[1..], v[1..])
  }

  predicate AllStars(p: string) {
    forall k :: 0 <= k < |p| ==> p[k] == '*'
  }

  // ---------------------------------------------------------------------------
  // What the loop computes

  ghost predicate ScanState(p: string, v: string, i: nat, j: nat, star: Option<nat>, starValue: nat) {
    && i <= |p| && j <= |v|
    && (star.None? ==> starValue == 0)
    && (star.Some? ==> star.value < i && p[star.value] == '*' && starValue <= j)
  }

  /** One recursive call per iteration of the loop, from pattern index `i` and value index `j`. */
  predicate Scan(p: string, v: string, i: nat, j: nat, star: Option<nat>, starValue: nat)
    requires ScanState(p, v, i, j, star, starValue)
    decreases |p| - (if star.Some? then star.value + 1 else 0), |v| - starValue, |v| - j
  {
    if j == |v| then AllStars(p[i..])
    else if i < |p| && (p[i] == '?' || p[i] == v[j]) then Scan(p, v, i + 1, j + 1, star, starValue)
    else if i < |p| && p[i] == '*' then Scan(p, v, i + 1, j, Some(i), j)
    else if star.Some? then Scan(p, v, star.value + 1, starValue + 1, star, starValue + 1)
    else false
  }

  predicate GlobAccepts(p: string, v: string) {
    Scan(p, v, 0, 0, None, 0)
  }

  /** The matcher itself: greedy, and backtracking only to the last `*`. */
  method GlobMatches(pattern: string, value: string) returns (r: bool)
    ensures r == GlobAccepts(pattern, value)
    ensures r ==> Matches(pattern, value)
    ensures '*' !in pattern || '*' !in value ==> (r <==> Matches(pattern, value))
  {
    GlobSound(pattern, value);
    if '*' !in pattern || '*' !in value {
      GlobComplete(pattern, value);
    }
    var p: nat, v: nat := 0, 0;
    var star: Option<nat> := None;
    var starValue: nat := 0;
    while v < |value|
      invariant ScanState(pattern, value, p, v, star, starValue)
      invariant Scan(pattern, value, p, v, star, starValue) == GlobAccepts(pattern, value)
      decreases |pattern| - (if star.Some? then star.value + 1 else 0), |value| - starValue, |value| - v
    {
      if p < |pattern| && (pattern[p] == '?' || pattern[p] == value[v]) {
        p, v := p + 1, v + 1;
      } else if p < |pattern| && pattern[p] == '*' {
        star, starValue := Some(p), v;
        p := p + 1;
      } else if star.Some? {
        p := star.value + 1;
        starValue := starValue + 1;
        v := starValue;
      } else {
        return false;
      }
    }
    while p < |pattern| && pattern[p] == '*'
      invariant p <= |pattern|
      invariant AllStars(pattern[p..]) == GlobAccepts(pattern, value)
    {
      AllStarsStep(pattern, p);
      p := p + 1;
    }
    if p < |pattern| {
      AllStarsStep(pattern, p);
    }
    return p == |pattern|;
  }

  // ---------------------------------------------------------------------------
  // Soundness: an accepted value really matches, whatever bytes it holds

  lemma AllStarsStep(p: string, i: nat)
    requires i < |p|
    ensures AllStars(p[i..]) <==> p[i] == '*' && AllStars(p[i + 1..])
  {}

  lemma {:induction false} AllStarsMatchEmpty(p: string)
    ensures AllStars(p) <==> Matches(p, "")
  {
    if p != "" {
      AllStarsMatchEmpty(p[1..]);
      if AllStars(p) {
        assert p[0] == '*';
      }
      if Matches(p, "") {
        assert forall k :: 0 <= k < |p| ==> p[k] == if k == 0 then p[0] else p[1..][k - 1];
      }
    }
  }

  lemma {:induction false} ScanSound(p: string, v: string, i: nat, j: nat, star: Option<nat>, starValue: nat)
    requires ScanState(p, v, i, j, star, starValue)
    requires Scan(p, v, i, j, star, starValue)
    ensures Matches(p[i..], v[j..]) || (star.Some? && Matches(p[star.value..], v[starValue..]))
    decreases |p| - (if star.Some? then star.value + 1 else 0), |v| - starValue, |v| - j
  {
    if j == |v| {
      AllStarsMatchEmpty(p[i..]);
      assert v[j..] == "";
    } else if i < |p| && (p[i] == '?' || p[i] == v[j]) {
      ScanSound(p, v, i + 1, j + 1, star, starValue);
      Unfold(p, v, i, j);
      if p[i] == '*' && Matches(p[i + 1..], v[j + 1..]) {
        Unfold(p, v, i, j + 1);
      }
    } else if i < |p| && p[i] == '*' {
      ScanSound(p, v, i + 1, j, Some(i), j);
      Unfold(p, v, i, j);
    } else {
      ScanSound(p, v, star.value + 1, starValue + 1, star, starValue + 1);
      Unfold(p, v, star.value, starValue);
      Unfold(p, v, star.value, starValue + 1);
    }
  }

  /** The definition of Matches, on suffixes given by their indices. */
  lemma Unfold(p: string, v: string, i: nat, j: nat)
    requires i < |p| && j <= |v|
    ensures p[i] == '*' ==>
              (Matches(p[i..], v[j..]) <==> Matches(p[i + 1..], v[j..]) || (j < |v| && Matches(p[i..], v[j + 1..])))
    ensures p[i] != '*' ==>
              (Matches(p[i..], v[j..]) <==> j < |v| && (p[i] == '?' || p[i] == v[j]) && Matches(p[i + 1..], v[j + 1..]))
  {}

  lemma GlobSound(p: string, v: string)
    ensures GlobAccepts(p, v) ==> Matches(p, v)
  {
    if GlobAccepts(p, v) {
      ScanSound(p, v, 0, 0, None, 0);
      assert p[0..] == p && v[0..] == v;
    }
  }

  // ---------------------------------------------------------------------------
  // Completeness: giving up every star but the last loses nothing

  /** The pattern bytes since the last star are literals that matched the value bytes since. */
  ghost predicate Segment(p: string, i: nat, j: nat, star: Option<nat>, starValue: nat) {
    star.Some? ==>
      && star.value < i <= |p| && i - (star.value + 1) == j - starValue
      && '*' !in p[star.value + 1..i]
  }

  lemma SegmentGrows(p: string, s: nat, i: nat)
    requires s <= i < |p| && '*' !in p[s..i] && p[i] != '*'
    ensures '*' !in p[s..i + 1]
  {}

  /** A star-free stretch of the pattern consumes exactly its own length. */
  lemma {:induction false} StripSegment(p: string, v: string, s: nat, i: nat, k: nat)
    requires s <= i <= |p| && k <= |v|
    requires '*' !in p[s..i]
    requires Matches(p[s..], v[k..])
    ensures k + (i - s) <= |v|
    ensures Matches(p[i..], v[k + (i - s)..])
    decreases i - s
  {
    if s < i {
      assert p[s] == p[s..i][0];
      Unfold(p, v, s, k);
      assert p[s..i][1..] == p[s + 1..i];
      StripSegment(p, v, s + 1, i, k + 1);
    }
  }

  /** Whatever the star at `s` could still absorb, the rest of the pattern from `i` is matched at `j` or later. */
  lemma {:induction false} StarRest(p: string, v: string, s: nat, i: nat, k: nat) returns (j: nat)
    requires s < i <= |p| && k <= |v| && p[s] == '*'
    requires '*' !in p[s + 1..i]
    requires Matches(p[s..], v[k..])
    ensures k + (i - (s + 1)) <= j <= |v|
    ensures Matches(p[i..], v[j..])
    decreases |v| - k
  {
    Unfold(p, v, s, k);
    if Matches(p[s + 1..], v[k..]) {
      StripSegment(p, v, s + 1, i, k);
      j := k + (i - (s + 1));
    } else {
      j := StarRest(p, v, s, i, k + 1);
    }
  }

  lemma {:induction false} StarAbsorbs(p: string, v: string, i: nat, j: nat, k: nat)
    requires i < |p| && p[i] == '*' && j <= k <= |v|
    requires Matches(p[i..], v[k..])
    ensures Matches(p[i..], v[j..])
    decreases k - j
  {
    if j < k {
      StarAbsorbs(p, v, i, j + 1, k);
      Unfold(p, v, i, j);
    }
  }

  lemma {:induction false} ScanComplete(p: string, v: string, i: nat, j: nat, star: Option<nat>, starValue: nat)
    requires '*' !in p || '*' !in v
    requires ScanState(p, v, i, j, star, starValue)
    requires Segment(p, i, j, star, starValue)
    requires Matches(p[i..], v[j..]) || (star.Some? && Matches(p[star.value..], v[starValue..]))
    ensures Scan(p, v, i, j, star, starValue)
    decreases |p| - (if star.Some? then star.value + 1 else 0), |v| - starValue, |v| - j
  {
    if j == |v| {
      CurrentMustMatch(p, v, i, j, star, starValue);
      AllStarsMatchEmpty(p[i..]);
    } else if i < |p| && (p[i] == '?' || p[i] == v[j]) {
      assert p[i] in p && v[j] in v;
      Unfold(p, v, i, j);
      if star.Some? {
        SegmentGrows(p, star.value + 1, i);
      }
      ScanComplete(p, v, i + 1, j + 1, star, starValue);
    } else if i < |p| && p[i] == '*' {
      CurrentMustMatch(p, v, i, j, star, starValue);
      ScanComplete(p, v, i + 1, j, Some(i), j);
    } else {
      BacktrackKeepsMatch(p, v, i, j, star, starValue);
      ScanComplete(p, v, star.value + 1, starValue + 1, star, starValue + 1);
    }
  }

  /** At the end of the value, or at a fresh star, forgetting the previous star is safe. */
  lemma CurrentMustMatch(p: string, v: string, i: nat, j: nat, star: Option<nat>, starValue: nat)
    requires ScanState(p, v, i, j, star, starValue)
    requires Segment(p, i, j, star, starValue)
    requires Matches(p[i..], v[j..]) || (star.Some? && Matches(p[star.value..], v[starValue..]))
    requires j == |v| || (i < |p| && p[i] == '*')
    ensures Matches(p[i..], v[j..])
  {
    if !Matches(p[i..], v[j..]) {
      var k := StarRest(p, v, star.value, i, starValue);
      if j < |v| {
        StarAbsorbs(p, v, i, j, k);
      }
    }
  }

  /** On a mismatch the remembered star can still absorb one more byte. */
  lemma BacktrackKeepsMatch(p: string, v: string, i: nat, j: nat, star: Option<nat>, starValue: nat)
    requires ScanState(p, v, i, j, star, starValue)
    requires Segment(p, i, j, star, starValue)
    requires Matches(p[i..], v[j..]) || (star.Some? && Matches(p[star.value..], v[starValue..]))
    requires j < |v| && (i < |p| ==> p[i] != '?' && p[i] != v[j] && p[i] != '*')
    ensures star.Some? && Matches(p[star.value..], v[starValue + 1..])
  {
    assert !Matches(p[i..], v[j..]) by {
      if i < |p| {
        Unfold(p, v, i, j);
      }
    }
    Unfold(p, v, star.value, starValue);
    if Matches(p[star.value + 1..], v[starValue..]) {
      StripSegment(p, v, star.value + 1, i, starValue);
    }
  }

  lemma GlobComplete(p: string, v: string)
    requires '*' !in p || '*' !in v
    ensures Matches(p, v) <==> GlobAccepts(p, v)
  {
    GlobSound(p, v);
    if Matches(p, v) {
      assert p[0..] == p && v[0..] == v;
      ScanComplete(p, v, 0, 0, None, 0);
    }
  }

  // ---------------------------------------------------------------------------
  // Exactly when the matcher is the glob language.  The literal comparison comes before the
  // star test, so a `*` byte in the value can use up a `*` of the pattern.

  lemma {:induction false} LiteralRun(p: string, v: string, i: nat, n: nat)
    requires i <= n <= |p| && n <= |v| && p[..n] == v[..n]
    ensures Scan(p, v, i, i, None, 0) == Scan(p, v, n, n, None, 0)
    decreases n - i
  {
    if i < n {
      assert p[i] == p[..n][i] == v[..n][i] == v[i];
      LiteralRun(p, v, i + 1, n);
    }
  }

  lemma {:induction false} MatchesItself(p: string, v: string, i: nat, j: nat)
    requires i <= |p| && j <= |v| && p[i..] == v[j..]
    ensures Matches(p[i..], v[j..])
    decreases |p| - i
  {
    if i < |p| {
      assert p[i] == p[i..][0] == v[j..][0] == v[j];
      assert p[i + 1..] == p[i..][1..] == v[j..][1..] == v[j + 1..];
      MatchesItself(p, v, i + 1, j + 1);
      Unfold(p, v, i, j);
      if p[i] == '*' {
        Unfold(p, v, i, j + 1);
      }
    }
  }

  lemma {:induction false} MatchesPrefix(p: string, v: string, i: nat, n: nat)
    requires i <= n <= |p| && n <= |v| && p[..n] == v[..n]
    requires Matches(p[n..], v[n..])
    ensures Matches(p[i..], v[i..])
    decreases n - i
  {
    if i < n {
      assert p[i] == p[..n][i] == v[..n][i] == v[i];
      MatchesPrefix(p, v, i + 1, n);
      Unfold(p, v, i, i);
      if p[i] == '*' {
        Unfold(p, v, i, i + 1);
      }
    }
  }

  lemma FirstStar(s: string) returns (n: nat)
    requires '*' in s
    ensures n < |s| && s[n] == '*' && '*' !in s[..n]
  {
    n := 0;
    while s[n] != '*'
      invariant n < |s| && '*' !in s[..n]
      invariant exists k :: n <= k < |s| && s[k] == '*'
      decreases |s| - n
    {
      assert s[..n + 1] == s[..n] + [s[n]];
      n := n + 1;
    }
  }

  /** A value holding a `*` has a pattern that matches it and is refused. */
  lemma RefusedPattern(v: string) returns (p: string)
    requires '*' in v
    ensures Matches(p, v) && !GlobAccepts(p, v)
  {
    var n := FirstStar(v);
    p := v[..n] + "*" + (if n + 1 == |v| then "?" else "");
    assert p[..n + 1] == v[..n + 1];
    LiteralRun(p, v, 0, n + 1);
    assert !GlobAccepts(p, v) by {
      if n + 1 == |v| {
        assert p[n + 1..][0] == '?';
      }
    }
    assert p[..n] == v[..n];
    Unfold(p, v, n, n);
    if n + 1 == |v| {
      Unfold(p, v, n + 1, n);
      assert p[n + 2..] == v[n + 1..] == "";
    } else {
      assert p[n + 1..] == v[|v|..] == "";
      Unfold(p, v, n, |v|);
      StarAbsorbs(p, v, n, n, |v|);
    }
    MatchesPrefix(p, v, 0, n);
    assert p[0..] == p && v[0..] == v;
  }

  /** A pattern holding a `*` has a value that it matches and refuses. */
  lemma RefusedValue(p: string) returns (v: string)
    requires '*' in p
    ensures Matches(p, v) && !GlobAccepts(p, v)
  {
    var n := FirstStar(p);
    var rest := p[n + 1..];
    v := p + (if rest == "" then "x" else rest);
    assert v[..|p|] == p[..|p|];
    LiteralRun(p, v, 0, |p|);
    assert !GlobAccepts(p, v);
    var k := if rest == "" then |v| else |p|;
    assert v[k..] == p[n + 1..];
    MatchesItself(p, v, n + 1, k);
    Unfold(p, v, n, k);
    StarAbsorbs(p, v, n, n, k);
    assert v[..n] == p[..n];
    MatchesPrefix(p, v, 0, n);
    assert p[0..] == p && v[0..] == v;
  }

  /** The matcher decides the glob language for a value under every pattern exactly when the value has no `*`. */
  lemma ExactForValue(v: string)
    ensures (forall p :: GlobAccepts(p, v) == Matches(p, v)) <==> '*' !in v
  {
    if '*' in v {
      var p := RefusedPattern(v);
      assert GlobAccepts(p, v) != Matches(p, v);
    } else {
      forall p ensures GlobAccepts(p, v) == Matches(p, v) {
        GlobComplete(p, v);
      }
    }
  }

  /** ... and for a pattern on every value exactly when the pattern has no `*`. */
  lemma ExactForPattern(p: string)
    ensures (forall v :: GlobAccepts(p, v) == Matches(p, v)) <==> '*' !in p
  {
    if '*' in p {
      var v := RefusedValue(p);
      assert GlobAccepts(p, v) != Matches(p, v);
    } else {
      forall v ensures GlobAccepts(p, v) == Matches(p, v) {
        GlobComplete(p, v);
      }
    }
  }

  // ---------------------------------------------------------------------------
  // Queries: class!method/flags

  datatype QueryError = MissingSeparator | EmptyClassPattern | EmptyMethodPattern

  datatype Query = Query(
    classPattern: string,
    methodPattern: string,
    includeSignature: bool,
    ignoreCase: bool,
    skipSystemClasses: bool)

  function ToLower(c: char): char {
    if 'A' <= c <= 'Z' then (c as int + 32) as char else c
  }

  function NormalizeCase(s: string, ignoreCase: bool): string {
    if ignoreCase then seq(|s|, k requires 0 <= k < |s| => ToLower(s[k])) else s
  }

  predicate AllFlags(s: string) {
    forall k :: 0 <= k < |s| ==> s[k] == 'i' || s[k] == 's' || s[k] == 'u'
  }

  function ParseMethodQuery(query: string): Result<Query, QueryError> {
    match SplitOnce(query, '!')
    case None => Err(MissingSeparator)
    case Some((classPattern, rest)) =>
      if classPattern == "" then Err(EmptyClassPattern) else
      var (methodPattern, modifiers) := match RsplitOnce(rest, '/')
        case Some((method_, flags)) => if AllFlags(flags) then (method_, flags) else (rest, "")
        case None => (rest, "");
      if methodPattern == "" then Err(EmptyMethodPattern) else
      var ignoreCase := 'i' in modifiers;
      Ok(Query(NormalizeCase(classPattern, ignoreCase), NormalizeCase(methodPattern, ignoreCase),
               's' in modifiers, ignoreCase, 'u' in modifiers))
  }

  /** A query rendered with a flag suffix reads back as its parts, whatever the method pattern holds. */
  lemma ParseFlagged(classPattern: string, methodPattern: string, flags: string)
    requires '!' !in classPattern && AllFlags(flags)
    ensures ParseMethodQuery(classPattern + "!" + (methodPattern + "/" + flags)) ==
            if classPattern == "" then Err(EmptyClassPattern)
            else if methodPattern == "" then Err(EmptyMethodPattern)
            else Ok(Query(NormalizeCase(classPattern, 'i' in flags), NormalizeCase(methodPattern, 'i' in flags),
                          's' in flags, 'i' in flags, 'u' in flags))
  {
    SplitOnceAt(classPattern, '!', methodPattern + "/" + flags);
    assert '/' !in flags;
    RsplitOnceAt(methodPattern, '/', flags);
  }

  /** Without a recognised flag suffix, everything after the first `!` is the method pattern, verbatim. */
  lemma ParseUnflagged(classPattern: string, rest: string)
    requires '!' !in classPattern
    requires forall m: string, f: string {:trigger AllFlags(f), m + "/" + f} :: AllFlags(f) ==> rest != m + "/" + f
    ensures ParseMethodQuery(classPattern + "!" + rest) ==
            if classPattern == "" then Err(EmptyClassPattern)
            else if rest == "" then Err(EmptyMethodPattern)
            else Ok(Query(classPattern, rest, false, false, false))
  {
    SplitOnceAt(classPattern, '!', rest);
    RsplitOnceParts(rest, '/');
    match RsplitOnce(rest, '/')
    case None =>
    case Some((head, tail)) =>
      assert rest == head + "/" + tail;
      assert !AllFlags(tail);
  }

  lemma ParseNoSeparator(query: string)
    ensures ParseMethodQuery(query) == Err(MissingSeparator) <==> '!' !in query
  {
    SplitOnceParts(query, '!');
  }

  /** Glob matching in which letters compare without ASCII case. */
  predicate MatchesIgnoringCase(p: string, v: string)
    decreases |p| + |v|
  {
    if p == "" then v == ""
    else if p[0] == '*' then MatchesIgnoringCase(p[1..], v) || (v != "" && MatchesIgnoringCase(p, v[1..]))
    else v != "" && (p[0] == '?' || ToLower(p[0]) == ToLower(v[0])) && MatchesIgnoringCase(p[1..], v[1..])
  }

  /** Lower-casing both sides, as an `/i` query does, is matching without case. */
  lemma {:induction false} LowerCasingIsIgnoringCase(p: string, v: string)
    ensures Matches(NormalizeCase(p, true), NormalizeCase(v, true)) <==> MatchesIgnoringCase(p, v)
    decreases |p| + |v|
  {
    var lp, lv := NormalizeCase(p, true), NormalizeCase(v, true);
    if p != "" {
      assert lp[1..] == NormalizeCase(p[1..], true);
      if v != "" {
        assert lv[1..] == NormalizeCase(v[1..], true);
        LowerCasingIsIgnoringCase(p[1..], v[1..]);
        LowerCasingIsIgnoringCase(p, v[1..]);
      }
      LowerCasingIsIgnoringCase(p[1..], v);
    }
  }

  lemma CaseKeepsStars(s: string, ignoreCase: bool)
    ensures '*' in NormalizeCase(s, ignoreCase) <==> '*' in s
  {}

  /** A class or method name has no `*`, so an `/i` filter accepts it exactly when the glob matches without case. */
  lemma IgnoringCaseFilterExact(pattern: string, name: string)
    requires '*' !in name
    ensures GlobAccepts(NormalizeCase(pattern, true), NormalizeCase(name, true)) <==> MatchesIgnoringCase(pattern, name)
  {
    CaseKeepsStars(name, true);
    GlobComplete(NormalizeCase(pattern, true), NormalizeCase(name, true));
    LowerCasingIsIgnoringCase(pattern, name);
  }
}
