/** The wildcard matcher `wildcmp` of other.cpp:7-42 (Jack Handy's
    algorithm): `?` stands for any one character, `*` for any run of
    characters, the empty run included. Both arguments are C strings, so the
    model reads the character one past the end as the terminating NUL. */
module Wildcard {

  /** The character a C string yields at index `k`: its NUL past the end. */
  function At(s: string, k: nat): char
  {
    if k < |s| then s[k] else '\0'
  }

  /** A string that can be passed as a C string: no NUL inside it. */
  predicate CString(s: string)
  {
    forall k :: 0 <= k < |s| ==> s[k] != '\0'
  }

  /** Reference meaning of a pattern: `pat[w..]` matches `str[i..]`. */
  predicate MatchesFrom(pat: string, str: string, w: nat, i: nat)
    requires w <= |pat| && i <= |str|
    decreases |pat| - w + |str| - i
  {
    if w == |pat| then i == |str|
    else if pat[w] == '*' then
      MatchesFrom(pat, str, w + 1, i) || (i < |str| && MatchesFrom(pat, str, w, i + 1))
    else
      i < |str| && (pat[w] == '?' || pat[w] == str[i]) && MatchesFrom(pat, str, w + 1, i + 1)
  }

  /** The whole of `pat` matches the whole of `str`. */
  predicate Matches(pat: string, str: string)
  {
    MatchesFrom(pat, str, 0, 0)
  }

  /** No wildcard character in `pat`. */
  predicate Literal(pat: string)
  {
    forall k :: 0 <= k < |pat| ==> pat[k] != '*' && pat[k] != '?'
  }

  /** `pat[a..b]` holds no `*` and matches `str[j..j + (b - a)]` character by character. */
  ghost predicate LiteralRun(pat: string, str: string, a: nat, b: nat, j: nat)
  {
    && a <= b <= |pat|
    && j + (b - a) <= |str|
    && forall k :: a <= k < b ==> pat[k] != '*' && (pat[k] == '?' || pat[k] == str[j + (k - a)])
  }

  /** `pat[a..b]` holds no `*`. */
  ghost predicate StarFree(pat: string, a: nat, b: nat)
  {
    a <= b <= |pat| && forall k :: a <= k < b ==> pat[k] != '*'
  }

  /** A star-free run that matches character by character can be stepped over. */
  lemma {:induction false} RunShift(pat: string, str: string, a: nat, b: nat, j: nat)
    requires LiteralRun(pat, str, a, b, j)
    ensures MatchesFrom(pat, str, a, j) == MatchesFrom(pat, str, b, j + (b - a))
    decreases b - a
  {
    if a < b {
      assert LiteralRun(pat, str, a + 1, b, j + 1);
      RunShift(pat, str, a + 1, b, j + 1);
    }
  }

  /** A star-free run consumes exactly its own length of the string. */
  lemma {:induction false} RunForward(pat: string, str: string, a: nat, b: nat, j: nat)
    requires StarFree(pat, a, b) && j <= |str|
    requires MatchesFrom(pat, str, a, j)
    ensures j + (b - a) <= |str| && MatchesFrom(pat, str, b, j + (b - a))
    decreases b - a
  {
    if a < b {
      RunForward(pat, str, a + 1, b, j + 1);
    }
  }

  /** A `*` that matches from `t` leaves the rest of the pattern matching from some `j >= t`. */
  lemma {:induction false} StarSplit(pat: string, str: string, q: nat, t: nat) returns (j: nat)
    requires q < |pat| && pat[q] == '*' && t <= |str|
    requires MatchesFrom(pat, str, q, t)
    ensures t <= j <= |str| && MatchesFrom(pat, str, q + 1, j)
    decreases |str| - t
  {
    if MatchesFrom(pat, str, q + 1, t) {
      j := t;
    } else {
      j := StarSplit(pat, str, q, t + 1);
    }
  }

  /** A `*` that matches from `k` also matches from any earlier `t`. */
  lemma {:induction false} StarAbsorb(pat: string, str: string, q: nat, t: nat, k: nat)
    requires q < |pat| && pat[q] == '*' && t <= k <= |str|
    requires MatchesFrom(pat, str, q, k)
    ensures MatchesFrom(pat, str, q, t)
    decreases k - t
  {
    if t < k {
      StarAbsorb(pat, str, q, t + 1, k);
    }
  }

  /** A final `*` matches every remaining suffix. */
  lemma {:induction false} FinalStar(pat: string, str: string, q: nat, i: nat)
    requires q + 1 == |pat| && pat[q] == '*' && i <= |str|
    ensures MatchesFrom(pat, str, q, i)
    decreases |str| - i
  {
    if i < |str| {
      FinalStar(pat, str, q, i + 1);
    }
  }

  /** Backtracking only to the most recent `*` loses no match: once the
      literal run after it has been matched up to a new `*` (or to the end of
      the string), matching from that star's latest start equals matching
      from the current position. */
  lemma Greedy(pat: string, str: string, mp: nat, t: nat, w: nat, i: nat)
    requires 1 <= mp <= |pat| && pat[mp - 1] == '*'
    requires LiteralRun(pat, str, mp, w, t) && i == t + (w - mp)
    requires At(pat, w) == '*' || i == |str|
    ensures MatchesFrom(pat, str, mp - 1, t) == MatchesFrom(pat, str, w, i)
  {
    RunShift(pat, str, mp, w, t);
    if MatchesFrom(pat, str, mp - 1, t) {
      var j := StarSplit(pat, str, mp - 1, t);
      RunForward(pat, str, mp, w, j);
      if i < |str| {
        StarAbsorb(pat, str, w, i, j + (w - mp));
      }
    }
  }

  /** The first loop of `wildcmp`: compare character by character up to
      the first `*` or the end of the string. */
  method LiteralHead(wild: string, str: string) returns (w: nat, i: nat, mismatch: bool)
    requires CString(wild) && CString(str)
    ensures w == i && w <= |wild| && i <= |str|
    ensures mismatch ==> !Matches(wild, str)
    ensures !mismatch ==> Matches(wild, str) == MatchesFrom(wild, str, w, i)
    ensures !mismatch && i < |str| ==> At(wild, w) == '*'
  {
    w, i := 0, 0;
    while i < |str| && At(wild, w) != '*'
      invariant w == i && w <= |wild| && i <= |str|
      invariant Matches(wild, str) == MatchesFrom(wild, str, w, i)
    {
      if At(wild, w) != str[i] && At(wild, w) != '?' {
        return w, i, true;
      }
      w, i := w + 1, i + 1;
    }
    mismatch := false;
  }

  /** The state of the second loop of `wildcmp`: `matched` is whether the
      pattern matched from the loop's start. Before the first `*` (no mark,
      `mp < 0`) matching continues from `w` and `i`. Once a `*` has been
      passed, `mp` is the pattern position after the latest `*` and `cp - 1`
      the string position it was last tried at; the literal run `mp..w` has
      matched so far, and matching is decided from that star and `cp - 1`. */
  ghost predicate Scanning(wild: string, str: string, matched: bool, w: nat, i: nat, mp: int, cp: int)
  {
    && w <= |wild| && i <= |str|
    && (mp < 0 ==> cp == -1 && matched == MatchesFrom(wild, str, w, i) && (i < |str| ==> At(wild, w) == '*'))
    && (mp >= 0 ==>
          && 1 <= mp <= w && wild[mp - 1] == '*' && 1 <= cp <= i + 1
          && LiteralRun(wild, str, mp, w, cp - 1) && i == cp - 1 + (w - mp)
          && matched == MatchesFrom(wild, str, mp - 1, cp - 1))
  }

  /** Passing a `*`: a `*` that ends the pattern decides a match; any
      other `*` becomes the new mark, to be tried from the current position. */
  lemma PassStar(wild: string, str: string, matched: bool, w: nat, i: nat, mp: int, cp: int)
    requires Scanning(wild, str, matched, w, i, mp, cp) && i < |str| && At(wild, w) == '*'
    requires CString(wild)
    ensures At(wild, w + 1) == '\0' ==> matched
    ensures At(wild, w + 1) != '\0' ==> Scanning(wild, str, matched, w + 1, i, w + 1, i + 1)
  {
    if mp >= 0 {
      Greedy(wild, str, mp, cp - 1, w, i);
    }
    if At(wild, w + 1) == '\0' {
      FinalStar(wild, str, w, i);
    } else {
      assert LiteralRun(wild, str, w + 1, w + 1, i);
    }
  }

  /** A character matched after the mark extends the literal run. */
  lemma MatchOne(wild: string, str: string, matched: bool, w: nat, i: nat, mp: int, cp: int)
    requires Scanning(wild, str, matched, w, i, mp, cp) && i < |str| && At(wild, w) != '*'
    requires At(wild, w) == str[i] || At(wild, w) == '?'
    requires CString(str)
    ensures mp >= 0 && Scanning(wild, str, matched, w + 1, i + 1, mp, cp)
  {
  }

  /** A mismatch after the mark retries the literal run one character
      further along the string. */
  lemma Backtrack(wild: string, str: string, matched: bool, w: nat, i: nat, mp: int, cp: int)
    requires Scanning(wild, str, matched, w, i, mp, cp) && i < |str| && At(wild, w) != '*'
    requires At(wild, w) != str[i] && At(wild, w) != '?'
    ensures mp >= 0 && Scanning(wild, str, matched, mp, cp, mp, cp + 1)
  {
    RunShift(wild, str, mp, w, cp - 1);
  }

  /** The second loop of `wildcmp`, from a `*` at `w0`: it consumes the
      rest of the string, backtracking to the latest `*` on a mismatch. It
      stops early, matched, at a `*` that ends the pattern; otherwise it
      leaves the pattern position from which the empty rest must match. */
  method StarScan(wild: string, str: string, w0: nat, i0: nat) returns (w: nat, i: nat, done: bool)
    requires CString(wild) && CString(str) && w0 <= |wild| && i0 <= |str|
    requires i0 < |str| ==> At(wild, w0) == '*'
    ensures done ==> MatchesFrom(wild, str, w0, i0)
    ensures !done ==> w <= |wild| && i == |str| && MatchesFrom(wild, str, w0, i0) == MatchesFrom(wild, str, w, i)
  {
    ghost var matched := MatchesFrom(wild, str, w0, i0);
    w, i := w0, i0;
    var mp: int, cp: int := -1, -1;  // both NULL until the first `*` is met
    while i < |str|
      invariant Scanning(wild, str, matched, w, i, mp, cp)
      decreases |str| + 1 - cp, |str| - i, |wild| - w
    {
      if At(wild, w) == '*' {
        PassStar(wild, str, matched, w, i, mp, cp);
        w := w + 1;
        if At(wild, w) == '\0' {
          return w, i, true;
        }
        mp, cp := w, i + 1;
      } else if At(wild, w) == str[i] || At(wild, w) == '?' {
        MatchOne(wild, str, matched, w, i, mp, cp);
        w, i := w + 1, i + 1;
      } else {
        Backtrack(wild, str, matched, w, i, mp, cp);
        w, i, cp := mp, cp, cp + 1;
      }
    }
    if mp >= 0 {
      Greedy(wild, str, mp, cp - 1, w, i);
    }
    done := false;
  }

  /** The last loop of `wildcmp`: skip trailing `*`s, then match when the
      pattern is used up. */
  method TrailingStars(wild: string, str: string, w0: nat) returns (r: int)
    requires CString(wild) && w0 <= |wild|
    ensures r == if MatchesFrom(wild, str, w0, |str|) then 1 else 0
  {
    var w := w0;
    while At(wild, w) == '*'
      invariant w <= |wild|
      invariant MatchesFrom(wild, str, w0, |str|) == MatchesFrom(wild, str, w, |str|)
      decreases |wild| - w
    {
      w := w + 1;
    }
    r := if At(wild, w) == '\0' then 1 else 0;
  }

  /** `wildcmp(wild, string)`: 1 when `wild` matches all of `str`, else 0.
      A literal run is compared first; after the first `*` the loop keeps
      one backtracking mark (`mp` in the pattern, `cp` in the string). */
  method WildCmp(wild: string, str: string) returns (r: int)
    requires CString(wild) && CString(str)
    ensures r == if Matches(wild, str) then 1 else 0
  {
    var w, i, mismatch := LiteralHead(wild, str);
    if mismatch {
      return 0;
    }
    var done;
    w, i, done := StarScan(wild, str, w, i);
    if done {
      return 1;
    }
    r := TrailingStars(wild, str, w);
  }

  /** Without `*` or `?`, a pattern matches exactly the string equal to it. */
  lemma {:induction false} LiteralMatchesFrom(pat: string, str: string, w: nat, i: nat)
    requires Literal(pat) && w <= |pat| && i <= |str|
    ensures MatchesFrom(pat, str, w, i) <==> pat[w..] == str[i..]
    decreases |pat| - w
  {
    if w < |pat| {
      LiteralMatchesFrom(pat, str, w + 1, if i < |str| then i + 1 else i);
      if i < |str| {
        assert pat[w..] == [pat[w]] + pat[w + 1..];
        assert str[i..] == [str[i]] + str[i + 1..];
      }
    }
  }

  lemma LiteralMatches(pat: string, str: string)
    requires Literal(pat)
    ensures Matches(pat, str) <==> pat == str
  {
    LiteralMatchesFrom(pat, str, 0, 0);
  }

  /** A literal prefix followed by a final `*` matches exactly the strings
      that start with that prefix. */
  lemma {:induction false} PrefixStarFrom(prefix: string, str: string, w: nat, i: nat)
    requires Literal(prefix) && w <= |prefix| && i <= |str|
    ensures MatchesFrom(prefix + "*", str, w, i) <==>
              |prefix| - w <= |str| - i && prefix[w..] == str[i..i + (|prefix| - w)]
    decreases |prefix| - w
  {
    var pat := prefix + "*";
    if w == |prefix| {
      FinalStar(pat, str, w, i);
    } else {
      PrefixStarFrom(prefix, str, w + 1, if i < |str| then i + 1 else i);
      if i < |str| && |prefix| - w <= |str| - i {
        assert prefix[w..] == [prefix[w]] + prefix[w + 1..];
        assert str[i..i + (|prefix| - w)] == [str[i]] + str[i + 1..i + (|prefix| - w)];
      }
    }
  }

  lemma PrefixStar(prefix: string, str: string)
    requires Literal(prefix)
    ensures Matches(prefix + "*", str) <==> |prefix| <= |str| && str[..|prefix|] == prefix
  {
    PrefixStarFrom(prefix, str, 0, 0);
  }

  /** `wildcmp("LEVEL*", name)` holds exactly when `name` starts with "LEVEL". */
  lemma LevelPattern(name: string)
    ensures Matches("LEVEL*", name) <==> |name| >= 5 && name[..5] == "LEVEL"
  {
    assert "LEVEL*" == "LEVEL" + "*";
    PrefixStar("LEVEL", name);
  }

  /** `*` alone matches every string, the empty one included. */
  lemma StarMatchesAll(str: string)
    ensures Matches("*", str)
  {
    FinalStar("*", str, 0, 0);
  }

  /** `?` alone matches exactly the strings of one character. */
  lemma QuestionMatchesOne(str: string)
    ensures Matches("?", str) <==> |str| == 1
  {
    if str != [] {
      assert Matches("?", str) == MatchesFrom("?", str, 1, 1);
    }
  }

  /** A literal mismatch before any `*` rejects, whatever follows in either string. */
  lemma FirstMismatchRejects(pat: string, str: string, k: nat)
    requires k < |pat| && k < |str|
    requires forall m :: 0 <= m <= k ==> pat[m] != '*'
    requires pat[k] != '?' && pat[k] != str[k]
    ensures !Matches(pat, str)
  {
    if Matches(pat, str) {
      RunForward(pat, str, 0, k, 0);
    }
  }
}
