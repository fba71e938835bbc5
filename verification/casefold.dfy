/** Case-insensitive comparison `iequals` of other.cpp:66-73. */
module CaseFold {

  /** `std::tolower` in the "C" locale: only 'A'..'Z' change. */
  function ToLower(c: char): (l: char)
    ensures 'A' <= c <= 'Z' ==> l as int == c as int + 32
    ensures !('A' <= c <= 'Z') ==> l == c
  {
    if 'A' <= c <= 'Z' then (c as int + 32) as char else c
  }

  /** `iequals(a, b)`: `std::equal` over both ranges, comparing lower-cased
      characters; ranges of different length are unequal. */
  function IEquals(a: string, b: string): (r: bool)
    ensures r <==> |a| == |b| && forall k :: 0 <= k < |a| ==> ToLower(a[k]) == ToLower(b[k])
    decreases |a|
  {
    if a == [] || b == [] then a == b
    else ToLower(a[0]) == ToLower(b[0]) && IEquals(a[1..], b[1..])
  }

  lemma IEqualsReflexive(a: string)
    ensures IEquals(a, a)
  {
  }

  lemma IEqualsSymmetric(a: string, b: string)
    ensures IEquals(a, b) == IEquals(b, a)
  {
  }

  lemma IEqualsTransitive(a: string, b: string, c: string)
    requires IEquals(a, b) && IEquals(b, c)
    ensures IEquals(a, c)
  {
  }

  /** Strings that differ only in the case of ASCII letters compare equal. */
  lemma IEqualsIgnoresCase(a: string, b: string)
    requires |a| == |b|
    requires forall k :: 0 <= k < |a| ==> a[k] == b[k] || ToLower(a[k]) == b[k] || a[k] == ToLower(b[k])
    ensures IEquals(a, b)
  {
  }
}
